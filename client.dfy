/** The client's game state and how it changes: the log and dialogue
    buffers, the reducer that applies the server's actions, the tile edits of
    `modify_tiles`, the walking step, the nearest-NPC pick and the click
    handler. */
module Client {
  import opened Js
  import opened Wire
  import opened Tiles
  import opened Pathfinding

  // ----- bounded buffers -----

  const LogSize: nat := 20
  const HistorySize: nat := 12

  /** `pushLog`'s updater: `[s, ...l].slice(0, 20)`. */
  function PushedLog(log: seq<string>, s: string): (r: seq<string>)
    ensures |r| == if |log| < LogSize then |log| + 1 else LogSize
    ensures r[0] == s && r[1..] == log[..|r| - 1]
  {
    Take([s] + log, LogSize)
  }

  function Reversed<T>(xs: seq<T>): (r: seq<T>)
    ensures |r| == |xs| && forall i :: 0 <= i < |xs| ==> r[i] == xs[|xs| - 1 - i]
  {
    if xs == [] then [] else [xs[|xs| - 1]] + Reversed(xs[..|xs| - 1])
  }

  /** Pushing messages one by one. */
  function PushAll(log: seq<string>, msgs: seq<string>): seq<string>
  {
    if msgs == [] then log else PushedLog(PushAll(log, msgs[..|msgs| - 1]), msgs[|msgs| - 1])
  }

  /** However many messages are pushed onto a log of at most 20 entries,
      the log holds the newest 20 of all messages, newest first. */
  lemma {:induction false} PushAllNewestFirst(log: seq<string>, msgs: seq<string>)
    requires |log| <= LogSize
    ensures PushAll(log, msgs) == Take(Reversed(msgs) + log, LogSize)
    decreases |msgs|
  {
    if msgs != [] {
      var init, m := msgs[..|msgs| - 1], msgs[|msgs| - 1];
      PushAllNewestFirst(log, init);
      var all := Reversed(init) + log;
      assert Reversed(msgs) == [m] + Reversed(init);
      if |all| > LogSize {
        assert Take([m] + Take(all, LogSize), LogSize) == [m] + all[..LogSize - 1] == Take([m] + all, LogSize);
      }
      assert Reversed(msgs) + log == [m] + all;
    }
  }

  /** `pushNpcHistory`'s updater: append the turn to that NPC's history and
      keep its last 12 turns. */
  function PushedHistory(h: map<string, seq<Turn>>, npcId: string, turn: Turn): (r: map<string, seq<Turn>>)
    ensures r.Keys == h.Keys + {npcId}
    ensures forall id :: id in h && id != npcId ==> r[id] == h[id]
    ensures 1 <= |r[npcId]| <= HistorySize && r[npcId][|r[npcId]| - 1] == turn
  {
    var arr := if npcId in h then h[npcId] + [turn] else [turn];
    h[npcId := LastN(arr, HistorySize)]
  }

  /** The turns of one NPC as they would be with no bound. */
  function Turns(h: map<string, seq<Turn>>, npcId: string): seq<Turn>
  {
    if npcId in h then h[npcId] else []
  }

  function PushAllHistory(h: map<string, seq<Turn>>, npcId: string, turns: seq<Turn>): map<string, seq<Turn>>
  {
    if turns == [] then h
    else PushedHistory(PushAllHistory(h, npcId, turns[..|turns| - 1]), npcId, turns[|turns| - 1])
  }

  lemma LastNAppend(a: seq<Turn>, t: Turn)
    ensures LastN(LastN(a, HistorySize) + [t], HistorySize) == LastN(a + [t], HistorySize)
  {
    var b := LastN(a, HistorySize);
    if |a| > HistorySize {
      assert b + [t] == (a + [t])[|a| - HistorySize..];
    }
  }

  /** After any number of pushes, the NPC's history is the last 12 of all
      its turns, in order, and no other NPC's history changed. */
  lemma {:induction false} PushAllHistoryKeepsLast(h: map<string, seq<Turn>>, npcId: string, turns: seq<Turn>)
    requires turns != []
    ensures var r := PushAllHistory(h, npcId, turns);
            && r[npcId] == LastN(Turns(h, npcId) + turns, HistorySize)
            && forall id :: id in h && id != npcId ==> id in r && r[id] == h[id]
    decreases |turns|
  {
    var init, t := turns[..|turns| - 1], turns[|turns| - 1];
    assert Turns(h, npcId) + turns == (Turns(h, npcId) + init) + [t];
    if init == [] {
      assert Turns(h, npcId) + init == Turns(h, npcId);
      if npcId !in h {
        assert LastN([t], HistorySize) == [t];
      } else {
        assert LastN(h[npcId] + [t], HistorySize) == LastN(Turns(h, npcId) + [t], HistorySize);
      }
    } else {
      PushAllHistoryKeepsLast(h, npcId, init);
      LastNAppend(Turns(h, npcId) + init, t);
    }
  }

  // ----- quests -----

  datatype QuestStatus = New | Active | Done

  datatype Quest = Quest(id: string, title: string, desc: string, status: QuestStatus)

  const QuestLimit: nat := 6

  /** One quest of a `give_quests` payload: `??` fills only absent fields,
      so an empty title stays empty; `uuid` stands for the
      `crypto.randomUUID()` it draws when the id is missing. */
  function NormQuest(q: QuestOffer, uuid: string): (r: Quest)
    ensures r.status == New
    ensures r.id == (if q.id.Some? then q.id.value else uuid)
    ensures r.title == (if q.title.Some? then q.title.value else "Квест")
    ensures r.desc == (if q.desc.Some? then q.desc.value else "Описание отсутствует")
  {
    Quest(if q.id.Some? then q.id.value else uuid,
          if q.title.Some? then q.title.value else "Квест",
          if q.desc.Some? then q.desc.value else "Описание отсутствует",
          New)
  }

  /** The payload's quests in order; `uuid(i)` is the id drawn for the i-th. */
  function NormQuests(qs: seq<QuestOffer>, uuid: nat -> string): (r: seq<Quest>)
    ensures |r| == |qs| && forall i :: 0 <= i < |qs| ==> r[i] == NormQuest(qs[i], uuid(i))
  {
    seq(|qs|, i requires 0 <= i < |qs| => NormQuest(qs[i], uuid(i)))
  }

  // ----- modify_tiles -----

  /** `c.tile === 1 ? 1 : c.tile === 2 ? 2 : 0` */
  function TileCode(tile: int): (t: Tile)
    ensures (t == Wall <==> tile == 1) && (t == Water <==> tile == 2)
  {
    if tile == 1 then Wall else if tile == 2 then Water else Grass
  }

  /** The bounds test against the height and width of the grid before the
      edit. */
  predicate InTarget(c: TileChange, h: int, w: int)
  {
    0 <= c.y < h && 0 <= c.x < w
  }

  /** The holes a write past the end of a shorter row leaves; every reader
      of the grid (`tileAt`) takes a hole for a wall. */
  function Holes(n: nat): (r: seq<Tile>)
    ensures |r| == n && forall i :: 0 <= i < n ==> r[i] == Wall
  {
    seq(n, _ => Wall)
  }

  /** `clone[c.y][c.x] = t` */
  function WriteCell(m: Grid, c: TileChange): (r: Grid)
    requires 0 <= c.y < |m| && 0 <= c.x
  {
    var row := m[c.y];
    var t := TileCode(c.tile);
    m[c.y := if c.x < |row| then row[c.x := t] else row + Holes(c.x - |row|) + [t]]
  }

  /** The grid after the changes, in order, bounded by `h` and `w`. */
  function TilesAfter(m: Grid, cs: seq<TileChange>, h: int, w: int): (r: Grid)
    ensures |r| == |m|
  {
    if cs == [] then m
    else
      var prev := TilesAfter(m, cs[..|cs| - 1], h, w);
      var c := cs[|cs| - 1];
      if InTarget(c, h, w) && c.y < |prev| then WriteCell(prev, c) else prev
  }

  /** The tile of the last in-bounds change to (x, y), if any. */
  function Written(cs: seq<TileChange>, x: int, y: int, h: int, w: int): Option<int>
  {
    if cs == [] then None
    else
      var c := cs[|cs| - 1];
      if InTarget(c, h, w) && c.x == x && c.y == y then Some(c.tile)
      else Written(cs[..|cs| - 1], x, y, h, w)
  }

  /** On a rectangular grid, `modify_tiles` keeps the shape; each cell ends
      up with the code of the last in-bounds change to it, and a cell no
      in-bounds change mentions keeps its tile. Out-of-bounds changes do
      nothing. */
  lemma {:induction false} TilesAfterCells(m: Grid, cs: seq<TileChange>)
    requires Rectangular(m)
    ensures var r := TilesAfter(m, cs, |m|, Width(m));
            && (forall y :: 0 <= y < |m| ==> |r[y]| == |m[y]|)
            && forall y, x :: 0 <= y < |m| && 0 <= x < Width(m) ==>
                 r[y][x] == match Written(cs, x, y, |m|, Width(m))
                            case None => m[y][x]
                            case Some(t) => TileCode(t)
    decreases |cs|
  {
    if cs != [] {
      TilesAfterCells(m, cs[..|cs| - 1]);
    }
  }

  /** The `for (const c of changes)` loop over a copy of the grid. */
  method ApplyTileChanges(m: Grid, changes: seq<TileChange>) returns (clone: Grid)
    ensures clone == TilesAfter(m, changes, |m|, Width(m))
  {
    var h, w := |m|, Width(m);
    clone := m;
    var i := 0;
    while i < |changes|
      invariant 0 <= i <= |changes|
      invariant clone == TilesAfter(m, changes[..i], h, w)
    {
      var c := changes[i];
      assert changes[..i + 1][..i] == changes[..i];
      if 0 <= c.y < h && 0 <= c.x < w {
        var t := if c.tile == 1 then Wall else if c.tile == 2 then Water else Grass;
        var row := clone[c.y];
        if c.x < |row| {
          row := row[c.x := t];
        } else {
          row := row + Holes(c.x - |row|) + [t];
        }
        clone := clone[c.y := row];
      }
      i := i + 1;
    }
    assert changes[..|changes|] == changes;
  }

  // ----- the reducer -----

  /** The `useState` cells the reducer, the walking step and the click
      handler touch. */
  datatype View = View(grid: Grid, player: Vec2, npcs: seq<Npc>, enemies: seq<Enemy>, items: seq<Item>,
                       waypoint: Option<Waypoint>, quests: seq<Quest>, log: seq<string>, path: seq<Vec2>,
                       options: seq<Reply>, history: map<string, seq<Turn>>, currentNpc: Option<string>)

  /** `applyAction(a)`; `uuid(i)` is the id drawn for the i-th quest of a
      `give_quests` payload that has none. */
  function Applied(v: View, a: Action, uuid: nat -> string): View
  {
    match a
    case SetWaypoint(wp) => v.(waypoint := Some(wp))
    case GiveQuests(qs) => v.(quests := Take(NormQuests(qs, uuid) + v.quests, QuestLimit))
    case SpawnNpc(n) => v.(npcs := v.npcs + [n])
    case SpawnEnemy(e) => v.(enemies := v.enemies + [e])
    case PlaceItem(it) => v.(items := v.items + [it])
    case CreateMap(_, _, rows) => v.(grid := ToMatrix(rows))
    case DialogueOptions(opts) => v.(options := opts)
    case ModifyTiles(changes, note) =>
      var v' := v.(grid := TilesAfter(v.grid, changes, |v.grid|, Width(v.grid)));
      if note != "" then v'.(log := PushedLog(v.log, note)) else v'
    case Unrecognised(_) => v
  }

  /** Spawn actions append their payload at the end of its list and change
      nothing else. */
  lemma AppliedSpawns(v: View, a: Action, uuid: nat -> string)
    requires a.SpawnNpc? || a.SpawnEnemy? || a.PlaceItem?
    ensures var r := Applied(v, a, uuid);
            && (a.SpawnNpc? ==> r == v.(npcs := v.npcs + [a.npc]) && r.npcs[|v.npcs|] == a.npc)
            && (a.SpawnEnemy? ==> r == v.(enemies := v.enemies + [a.enemy]) && r.enemies[|v.enemies|] == a.enemy)
            && (a.PlaceItem? ==> r == v.(items := v.items + [a.item]) && r.items[|v.items|] == a.item)
  {
  }

  /** `set_waypoint` and `dialogue_options` replace the old value
      wholesale: the result does not depend on it. */
  lemma AppliedReplaces(v: View, v': View, a: Action, uuid: nat -> string)
    requires a.SetWaypoint? ==> v' == v.(waypoint := v'.waypoint)
    requires a.DialogueOptions? ==> v' == v.(options := v'.options)
    requires a.SetWaypoint? || a.DialogueOptions?
    ensures Applied(v, a, uuid) == Applied(v', a, uuid)
    ensures a.SetWaypoint? ==> Applied(v, a, uuid).waypoint == Some(a.waypoint)
    ensures a.DialogueOptions? ==> Applied(v, a, uuid).options == a.options
  {
  }

  /** `give_quests` puts the payload's quests, normalised and marked new,
      before the old ones and keeps at most six. */
  lemma AppliedQuests(v: View, qs: seq<QuestOffer>, uuid: nat -> string)
    ensures var r := Applied(v, GiveQuests(qs), uuid).quests;
            && |r| == (if |qs| + |v.quests| <= QuestLimit then |qs| + |v.quests| else QuestLimit)
            && (forall i :: 0 <= i < |r| && i < |qs| ==> r[i] == NormQuest(qs[i], uuid(i)) && r[i].status == New)
            && (forall i :: |qs| <= i < |r| ==> r[i] == v.quests[i - |qs|])
            && Applied(v, GiveQuests(qs), uuid) == v.(quests := r)
  {
  }

  /** An action of a type the client does not know changes nothing, and
      `create_map` replaces the grid without any check on the rows. */
  lemma AppliedOthers(v: View, a: Action, uuid: nat -> string)
    ensures a.Unrecognised? ==> Applied(v, a, uuid) == v
    ensures a.CreateMap? ==> Applied(v, a, uuid) == v.(grid := ToMatrix(a.rows)) &&
                             |Applied(v, a, uuid).grid| == |a.rows|
  {
  }

  /** `modify_tiles` changes only the grid and, when it has a note, logs
      it; on a rectangular grid the shape is kept and the cells follow
      `TilesAfterCells`. */
  lemma AppliedTiles(v: View, changes: seq<TileChange>, note: string, uuid: nat -> string)
    requires Rectangular(v.grid)
    ensures var r := Applied(v, ModifyTiles(changes, note), uuid);
            && r == v.(grid := r.grid, log := r.log)
            && (note == "" ==> r.log == v.log)
            && (note != "" ==> r.log == PushedLog(v.log, note) && r.log[0] == note)
            && |r.grid| == |v.grid| && (forall y :: 0 <= y < |v.grid| ==> |r.grid[y]| == |v.grid[y]|)
            && forall y, x ::
                 0 <= y < |v.grid| && 0 <= x < Width(v.grid) && Written(changes, x, y, |v.grid|, Width(v.grid)) == None
                 ==> r.grid[y][x] == v.grid[y][x]
  {
    TilesAfterCells(v.grid, changes);
  }

  // ----- walking -----

  /** The path-step updater: the player moves to the head of the path and
      the tail remains; an empty path stays as it is. */
  function Step(player: Vec2, path: seq<Vec2>): (r: (Vec2, seq<Vec2>))
    ensures path != [] ==> [r.0] + r.1 == path
    ensures path == [] ==> r == (player, [])
  {
    if path == [] then (player, path) else (path[0], path[1..])
  }

  /** `ticks` path steps in a row; each uses up one cell of the path until
      none is left. */
  function Walk(player: Vec2, path: seq<Vec2>, ticks: nat): (r: (Vec2, seq<Vec2>))
    ensures |r.1| == if ticks <= |path| then |path| - ticks else 0
  {
    if ticks == 0 then (player, path)
    else var s := Walk(player, path, ticks - 1); Step(s.0, s.1)
  }

  /** After i + 1 ticks the player stands on the i-th cell of the path with
      the rest of the path ahead, and once the path is used up the player
      stays on its last cell. */
  lemma {:induction false} WalkFollowsPath(player: Vec2, path: seq<Vec2>, ticks: nat)
    ensures ticks <= |path| ==> Walk(player, path, ticks).1 == path[ticks..]
    ensures 0 < ticks <= |path| ==> Walk(player, path, ticks).0 == path[ticks - 1]
    ensures |path| <= ticks ==> Walk(player, path, ticks) == (if path == [] then player else Last(path), [])
    decreases ticks
  {
    if ticks > 0 {
      WalkFollowsPath(player, path, ticks - 1);
    }
  }

  // ----- finding NPCs -----

  predicate Within(n: Npc, c: Vec2, d: nat)
  {
    Manhattan(Vec2(n.x, n.y), c) <= d
  }

  /** The position of the first NPC within distance d of c. */
  function FirstWithinIndex(npcs: seq<Npc>, c: Vec2, d: nat): (r: Option<nat>)
    ensures r.Some? ==> r.value < |npcs| && Within(npcs[r.value], c, d) &&
                        forall j :: 0 <= j < r.value ==> !Within(npcs[j], c, d)
    ensures r == None <==> forall i :: 0 <= i < |npcs| ==> !Within(npcs[i], c, d)
  {
    if npcs == [] then None
    else if Within(npcs[0], c, d) then Some(0)
    else match FirstWithinIndex(npcs[1..], c, d)
      case None => None
      case Some(i) => Some(i + 1)
  }

  /** `npcs.find(n => |n.x - c.x| + |n.y - c.y| <= d)`: the first NPC within
      distance d of c. */
  function FirstWithin(npcs: seq<Npc>, c: Vec2, d: nat): (r: Option<Npc>)
    ensures r == None <==> forall i :: 0 <= i < |npcs| ==> !Within(npcs[i], c, d)
    ensures r.Some? ==> r.value in npcs && Within(r.value, c, d)
  {
    var i := FirstWithinIndex(npcs, c, d);
    if i.Some? then Some(npcs[i.value]) else None
  }

  /** The NPC a talk goes to: the first within one step of the player. */
  function NearestNpc(npcs: seq<Npc>, player: Vec2): Option<Npc>
  {
    FirstWithin(npcs, player, 1)
  }

  /** The NPC a talk goes to is one of the NPCs and stands within one step
      of the player; there is none exactly when every NPC is farther. */
  lemma NearestNpcWithin(npcs: seq<Npc>, player: Vec2)
    ensures var r := NearestNpc(npcs, player);
            && (r.Some? ==> r.value in npcs && Manhattan(Vec2(r.value.x, r.value.y), player) <= 1)
            && (r == None <==> forall n :: n in npcs ==> Manhattan(Vec2(n.x, n.y), player) > 1)
  {
  }

  /** The NPC on a clicked cell: the first standing exactly there. The
      clicked NPC stands on the clicked cell, and there is none exactly
      when nobody stands there. */
  function NpcAt(npcs: seq<Npc>, target: Vec2): (r: Option<Npc>)
    ensures r.Some? ==> r.value in npcs && r.value.x == target.x && r.value.y == target.y
    ensures r == None <==> forall n :: n in npcs ==> n.x != target.x || n.y != target.y
  {
    FirstWithin(npcs, target, 0)
  }

  // ----- the game -----

  const DemoNpc: Npc := Npc("npc-demo", 13, 13, "Гридд", "торговец", "жадный, но обаятельный")
  const WakeUp: string := "Вы очнулись на поляне."
  const NobodyNear: string := "Рядом нет NPC."
  const NoWay: string := "Туда не пройти."

  /** A click on an NPC standing at `goal` leaves nothing to walk: the cell
      is not grass, is the player's own, is one step away, or cannot be
      reached. */
  ghost predicate NothingToWalk(grid: Grid, player: Vec2, goal: Vec2)
  {
    !Passable(grid, goal) || goal == player || goal in Neighbors(grid, player) || Unreachable(grid, player, goal)
  }

  /** `walk` leads from `player` up to the cell before `goal`: with `goal`
      appended it is a route, and no route to `goal` is shorter. */
  ghost predicate Approaches(grid: Grid, player: Vec2, goal: Vec2, walk: seq<Vec2>)
  {
    walk != [] && IsRoute(grid, player, walk + [goal]) && NoShorterRoute(grid, player, goal, |walk| + 1)
  }

  /** `findPath(player, {x: npc.x, y: npc.y})` as the click handler reads
      it: more than one cell exactly when there is something to walk, and
      then a shortest route to the NPC's cell, whose cells but the last
      approach the NPC. */
  method ApproachRoute(grid: Grid, player: Vec2, goal: Vec2) returns (p: seq<Vec2>)
    ensures |p| <= 1 <==> NothingToWalk(grid, player, goal)
    ensures |p| > 1 ==> IsRoute(grid, player, p) && Last(p) == goal && NoShorterRoute(grid, player, goal, |p|)
    ensures |p| > 1 ==> Approaches(grid, player, goal, p[..|p| - 1])
  {
    p := FindPath(grid, player, goal);
    FoundPathShort(grid, player, goal, p);
    if |p| > 1 {
      assert p[..|p| - 1] + [goal] == p;
    }
  }

  /** `findPath(player, target)` as the click handler reads it off an NPC:
      empty exactly when the cell is not grass, is the player's own or
      cannot be reached, and otherwise a shortest route ending on it. */
  method DestinationRoute(grid: Grid, player: Vec2, target: Vec2) returns (p: seq<Vec2>)
    ensures p == [] <==> !Passable(grid, target) || target == player || Unreachable(grid, player, target)
    ensures p != [] ==> IsRoute(grid, player, p) && Last(p) == target && NoShorterRoute(grid, player, target, |p|)
  {
    p := FindPath(grid, player, target);
    FoundPathShort(grid, player, target, p);
  }

  /** What a click led to. */
  datatype ClickOutcome = Walking | Talking(npc: Option<Npc>) | Blocked

  /** The component's state, one field per `useState` cell it models. */
  class Game {
    var grid: Grid
    var player: Vec2
    var npcs: seq<Npc>
    var enemies: seq<Enemy>
    var items: seq<Item>
    var waypoint: Option<Waypoint>
    var quests: seq<Quest>
    var log: seq<string>
    var path: seq<Vec2>
    var options: seq<Reply>
    var history: map<string, seq<Turn>>
    var currentNpc: Option<string>

    function Snapshot(): View
      reads this
    {
      View(grid, player, npcs, enemies, items, waypoint, quests, log, path, options, history, currentNpc)
    }

    /** The initial state: a generated 24x24 map walled at its border, the
        player at (5, 5) and the demo trader standing in the cleared centre. */
    constructor(draws: nat -> bool)
      ensures |grid| == 24 && Rectangular(grid) && Width(grid) == 24
      ensures forall y, x :: 0 <= y < 24 && 0 <= x < 24 && OnBorder(x, y, 24, 24) ==> grid[y][x] == Wall
      ensures forall y, x :: InClearing(x, y) ==> grid[y][x] == Grass
      ensures InClearing(DemoNpc.x, DemoNpc.y)
      ensures player == Vec2(5, 5) && npcs == [DemoNpc] && log == [WakeUp]
      ensures enemies == [] && items == [] && waypoint == None && quests == [] && path == []
      ensures options == [] && history == map[] && currentNpc == None
    {
      var m := GenerateMap(24, 24, draws);
      grid := m;
      player := Vec2(5, 5);
      npcs := [DemoNpc];
      enemies, items, waypoint, quests := [], [], None, [];
      log := [WakeUp];
      path, options, history, currentNpc := [], [], map[], None;
    }

    method PushLog(s: string)
      modifies this
      ensures Snapshot() == old(Snapshot()).(log := PushedLog(old(log), s))
    {
      log := Take([s] + log, LogSize);
    }

    method PushNpcHistory(npcId: string, turn: Turn)
      modifies this
      ensures Snapshot() == old(Snapshot()).(history := PushedHistory(old(history), npcId, turn))
    {
      var arr := if npcId in history then history[npcId] + [turn] else [turn];
      history := history[npcId := LastN(arr, HistorySize)];
    }

    /** `applyAction`. */
    method ApplyAction(a: Action, uuid: nat -> string)
      modifies this
      ensures Snapshot() == Applied(old(Snapshot()), a, uuid)
    {
      match a {
        case SetWaypoint(wp) =>
          waypoint := Some(wp);
        case GiveQuests(qs) =>
          var given := NormQuests(qs, uuid);
          quests := Take(given + quests, QuestLimit);
        case SpawnNpc(n) =>
          npcs := npcs + [n];
        case SpawnEnemy(e) =>
          enemies := enemies + [e];
        case PlaceItem(it) =>
          items := items + [it];
        case CreateMap(_, _, rows) =>
          grid := ToMatrix(rows);
        case DialogueOptions(opts) =>
          options := opts;
        case ModifyTiles(changes, note) =>
          grid := ApplyTileChanges(grid, changes);
          if note != "" {
            PushLog(note);
          }
        case Unrecognised(_) =>
      }
    }

    /** One tick of the walking timer. */
    method Tick()
      modifies this
      ensures (player, path) == Step(old(player), old(path))
      ensures Snapshot() == old(Snapshot()).(player := player, path := path)
    {
      if |path| > 0 {
        player := path[0];
        path := path[1..];
      }
    }

    /** The synchronous start of `talkToNearestNPC`: with no NPC within one
        step it only logs; otherwise that NPC becomes the current one, the
        reply options are cleared and the player's opening line, if any,
        goes into its history. The request that follows is not modelled. */
    method BeginTalk(message: Option<string>) returns (near: Option<Npc>)
      modifies this
      ensures near == NearestNpc(old(npcs), old(player))
      ensures near == None ==> Snapshot() == old(Snapshot()).(log := PushedLog(old(log), NobodyNear))
      ensures near.Some? ==>
                Snapshot() == old(Snapshot()).(currentNpc := Some(near.value.id), options := [],
                                               history := if message.Some? && message.value != ""
                                                          then PushedHistory(old(history), near.value.id, Turn("player", message.value))
                                                          else old(history))
    {
      near := FirstWithin(npcs, player, 1);
      if near == None {
        PushLog(NobodyNear);
        return;
      }
      currentNpc := Some(near.value.id);
      options := [];
      if message.Some? && message.value != "" {
        PushNpcHistory(near.value.id, Turn("player", message.value));
      }
    }

    /** The click handler's branch for a click on NPC `n`: walk up to it by
        a shortest route, stopping one cell short, or start a talk when that
        route has at most one cell. */
    method ClickNpc(n: Npc) returns (outcome: ClickOutcome)
      modifies this
      ensures outcome == Walking || outcome.Talking?
      ensures outcome.Talking? <==> NothingToWalk(old(grid), old(player), Vec2(n.x, n.y))
      ensures outcome == Walking ==>
                Snapshot() == old(Snapshot()).(path := path) && Approaches(grid, player, Vec2(n.x, n.y), path)
      ensures outcome.Talking? ==>
                && outcome.npc == NearestNpc(old(npcs), old(player))
                && (outcome.npc == None ==> Snapshot() == old(Snapshot()).(log := PushedLog(old(log), NobodyNear)))
                && (outcome.npc.Some? ==>
                      Snapshot() == old(Snapshot()).(currentNpc := Some(outcome.npc.value.id), options := []))
    {
      var goal := Vec2(n.x, n.y);
      ghost var before := Snapshot();
      var p := ApproachRoute(grid, player, goal);
      if |p| > 1 {
        path := p[..|p| - 1];
        assert Snapshot() == before.(path := path);
        return Walking;
      }
      var near := BeginTalk(None);
      assert near == None ==> Snapshot() == before.(log := PushedLog(before.log, NobodyNear));
      return Talking(near);
    }

    /** The click handler's branch for a click on a cell with no NPC: walk a
        shortest route onto it, or log that there is no way exactly when the
        cell is not grass, is the player's own or cannot be reached. */
    method ClickCell(target: Vec2) returns (outcome: ClickOutcome)
      modifies this
      ensures outcome == Walking || outcome == Blocked
      ensures outcome == Blocked <==>
                !Passable(old(grid), target) || target == old(player) || Unreachable(old(grid), old(player), target)
      ensures outcome == Walking ==>
                && Snapshot() == old(Snapshot()).(path := path)
                && path != [] && IsRoute(grid, player, path) && Last(path) == target
                && NoShorterRoute(grid, player, target, |path|)
      ensures outcome == Blocked ==> Snapshot() == old(Snapshot()).(log := PushedLog(old(log), NoWay))
    {
      var p := DestinationRoute(grid, player, target);
      if |p| > 0 {
        path := p;
        return Walking;
      }
      PushLog(NoWay);
      return Blocked;
    }

    /** The click handler, for the cell `target` under the mouse. On an
        NPC the player walks up next to it by a shortest route, or talks
        when there is nothing to walk; elsewhere the player walks a
        shortest route to the cell, or the log says there is no way. A new
        path replaces the old one wholesale. */
    method Click(target: Vec2) returns (outcome: ClickOutcome)
      modifies this
      ensures NpcAt(old(npcs), target).Some? ==> outcome == Walking || outcome.Talking?
      ensures NpcAt(old(npcs), target) == None ==> !outcome.Talking?
      ensures NpcAt(old(npcs), target).Some? ==>
                (outcome.Talking? <==> NothingToWalk(old(grid), old(player), target))
      ensures outcome == Walking && NpcAt(old(npcs), target).Some? ==>
                Snapshot() == old(Snapshot()).(path := path) && Approaches(grid, player, target, path)
      ensures outcome.Talking? ==>
                && outcome.npc == NearestNpc(old(npcs), old(player))
                && (outcome.npc == None ==> Snapshot() == old(Snapshot()).(log := PushedLog(old(log), NobodyNear)))
                && (outcome.npc.Some? ==>
                      Snapshot() == old(Snapshot()).(currentNpc := Some(outcome.npc.value.id), options := []))
      ensures outcome == Walking && NpcAt(old(npcs), target) == None ==>
                && Snapshot() == old(Snapshot()).(path := path)
                && path != [] && IsRoute(grid, player, path) && Last(path) == target
                && NoShorterRoute(grid, player, target, |path|)
      ensures outcome == Blocked ==>
                && NpcAt(npcs, target) == None
                && Snapshot() == old(Snapshot()).(log := PushedLog(old(log), NoWay))
                && (!Passable(grid, target) || target == player || Unreachable(grid, player, target))
      ensures NpcAt(old(npcs), target) == None ==>
                (outcome == Blocked <==>
                   !Passable(old(grid), target) || target == old(player) || Unreachable(old(grid), old(player), target))
    {
      var hit := NpcAt(npcs, target);
      if hit.Some? {
        assert Vec2(hit.value.x, hit.value.y) == target;
        outcome := ClickNpc(hit.value);
      } else {
        outcome := ClickCell(target);
      }
    }
  }
}
