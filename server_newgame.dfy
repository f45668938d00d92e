/** `/api/newgame`: the generator proposes tool calls, each recognised call
    is applied to a request-local world and echoed as an action, the tool
    outputs go back to the generator, and this repeats for at most four
    rounds. */
module NewGame {
  import opened Js
  import opened Wire
  import opened ServerCalls

  /** `req.body.size`; `{ w: 24, h: 24 }` when the request has none. */
  datatype Size = Size(w: Option<int>, h: Option<int>)

  /** `world.map`: `w` and `h` as the request or the accepted call gave them. */
  datatype MapRecord = MapRecord(w: Option<int>, h: Option<int>, rows: seq<string>, legend: Legend)

  datatype WorldState = WorldState(worldMap: MapRecord, npcs: seq<Npc>, enemies: seq<Enemy>,
                                   items: seq<Item>, waypoint: Option<Waypoint>)

  const DefaultLegend: Legend := map["0" := "grass", "1" := "wall", "2" := "water"]

  const NewGameNames: set<string> :=
    {"create_map", "spawn_npc", "spawn_enemy", "place_item", "set_waypoint",
     "give_quests", "modify_tiles", "offer_replies"}

  const SpawnNames: set<string> := {"spawn_npc", "spawn_enemy", "place_item"}

  /** The world a request starts from: an empty map of the requested size
      with the default legend, no entities and no waypoint. */
  function InitialWorld(size: Option<Size>): (w: WorldState)
    ensures w.npcs == [] && w.enemies == [] && w.items == [] && w.waypoint == None
    ensures w.worldMap.rows == [] && w.worldMap.legend == DefaultLegend
    ensures size == None ==> w.worldMap.w == Some(24) && w.worldMap.h == Some(24)
  {
    var sz := if size.Some? then size.value else Size(Some(24), Some(24));
    WorldState(MapRecord(sz.w, sz.h, [], DefaultLegend), [], [], [], None)
  }

  /** What one call does: the new world, the echoed action, the result that
      becomes the tool output, and how many random draws have been used. */
  datatype Effect = Effect(world: WorldState, action: Option<Action>, result: Option<CallResult>, draws: nat)

  /** The dispatch on `call.name` in `/api/newgame`; `rand(k)` is the id
      suffix made from the k-th `Math.random()` of the request. */
  function NewGameEffect(w: WorldState, name: string, args: Args, rand: nat -> string, k: nat): (e: Effect)
    ensures e.result.Some? <==> name in NewGameNames
    ensures e.action.Some? ==> e.result.Some?
    ensures e.draws == if name in SpawnNames then k + 1 else k
  {
    if name == "create_map" then
      if ValidMapArgs(args) then
        var rows := RowStrings(args.rows.value);
        var legend := if args.legend.Some? then args.legend.value else w.worldMap.legend;
        Effect(w.(worldMap := MapRecord(args.w, args.h, rows, legend)),
               Some(CreateMap(args.w, |rows|, rows)), Some(MapAccepted(args.w, |rows|)), k)
      else Effect(w, None, Some(MapInvalid), k)
    else if name == "spawn_npc" then
      var npc := NpcFrom(args, rand(k));
      Effect(w.(npcs := w.npcs + [npc]), Some(SpawnNpc(npc)), Some(NpcSpawned(npc)), k + 1)
    else if name == "spawn_enemy" then
      var enemy := EnemyFrom(args, rand(k));
      Effect(w.(enemies := w.enemies + [enemy]), Some(SpawnEnemy(enemy)), Some(EnemySpawned(enemy)), k + 1)
    else if name == "place_item" then
      var item := ItemFrom(args, rand(k));
      Effect(w.(items := w.items + [item]), Some(PlaceItem(item)), Some(ItemPlaced(item)), k + 1)
    else if name == "set_waypoint" then
      var wp := WaypointFrom(args);
      Effect(w.(waypoint := Some(wp)), Some(SetWaypoint(wp)), Some(WaypointSet(wp)), k)
    else if name == "give_quests" then
      Effect(w, Some(GiveQuests(StartQuests)), Some(QuestsGiven(StartQuests)), k)
    else if name == "modify_tiles" then
      var changes := ChangesFrom(args);
      var note := StringOr(args.note, "");
      Effect(w, Some(ModifyTiles(changes, note)), Some(TilesChanged(|changes|, note)), k)
    else if name == "offer_replies" then
      var options := RepliesFrom(args);
      Effect(w, Some(DialogueOptions(options)), Some(RepliesOffered(options)), k)
    else Effect(w, None, None, k)
  }

  /** `create_map` is accepted exactly when `rows` has `h` strings of length
      `w`. Then the map is replaced (the legend defaults to the previous one)
      and `{w, h, rows}` is echoed; otherwise the world is unchanged, the
      result is `{ok: false}` and nothing is echoed. */
  lemma CreateMapAcceptance(w: WorldState, args: Args, rand: nat -> string, k: nat)
    ensures var e := NewGameEffect(w, "create_map", args, rand, k);
            && (e.action.Some? <==> ValidMapArgs(args))
            && (ValidMapArgs(args) ==>
                  var rows := RowStrings(args.rows.value);
                  && e.world == w.(worldMap := MapRecord(args.w, Some(|rows|), rows,
                                     if args.legend.Some? then args.legend.value else w.worldMap.legend))
                  && e.action == Some(CreateMap(args.w, |rows|, rows))
                  && forall i :: 0 <= i < |rows| ==> Some(|rows[i]|) == args.w)
            && (!ValidMapArgs(args) ==> e.world == w && e.result == Some(MapInvalid))
  {
  }

  /** A spawn call appends one entity with id prefix + the next random
      suffix to its own list, echoes it, and leaves the rest of the world
      alone. */
  lemma SpawnAppendsOne(w: WorldState, name: string, args: Args, rand: nat -> string, k: nat)
    requires name in SpawnNames
    ensures var e := NewGameEffect(w, name, args, rand, k);
            && e.world.worldMap == w.worldMap && e.world.waypoint == w.waypoint
            && (name == "spawn_npc" ==>
                  && e.world.npcs == w.npcs + [NpcFrom(args, rand(k))]
                  && e.world.npcs[|w.npcs|].id == "npc-" + rand(k)
                  && e.world.enemies == w.enemies && e.world.items == w.items)
            && (name == "spawn_enemy" ==>
                  && e.world.enemies == w.enemies + [EnemyFrom(args, rand(k))]
                  && e.world.enemies[|w.enemies|].id == "en-" + rand(k)
                  && e.world.npcs == w.npcs && e.world.items == w.items)
            && (name == "place_item" ==>
                  && e.world.items == w.items + [ItemFrom(args, rand(k))]
                  && e.world.items[|w.items|].id == "it-" + rand(k)
                  && e.world.npcs == w.npcs && e.world.enemies == w.enemies)
  {
  }

  /** `give_quests`, `modify_tiles` and `offer_replies` leave the world
      alone; `give_quests` ignores its arguments. */
  lemma NonWorldCalls(w: WorldState, name: string, args: Args, args': Args, rand: nat -> string, k: nat)
    requires name in {"give_quests", "modify_tiles", "offer_replies"}
    ensures NewGameEffect(w, name, args, rand, k).world == w
    ensures name == "give_quests" ==>
              NewGameEffect(w, name, args, rand, k) == NewGameEffect(w, name, args', rand, k) &&
              NewGameEffect(w, name, args, rand, k).action == Some(GiveQuests(StartQuests))
    ensures name == "modify_tiles" ==>
              NewGameEffect(w, name, args, rand, k).result == Some(TilesChanged(|ChangesFrom(args)|, StringOr(args.note, "")))
  {
  }

  /** The request-local `world` object that the handler mutates. */
  class World {
    var worldMap: MapRecord
    var npcs: seq<Npc>
    var enemies: seq<Enemy>
    var items: seq<Item>
    var waypoint: Option<Waypoint>

    function State(): WorldState
      reads this
    {
      WorldState(worldMap, npcs, enemies, items, waypoint)
    }

    constructor(size: Option<Size>)
      ensures State() == InitialWorld(size)
    {
      var sz := if size.Some? then size.value else Size(Some(24), Some(24));
      worldMap := MapRecord(sz.w, sz.h, [], DefaultLegend);
      npcs, enemies, items := [], [], [];
      waypoint := None;
    }

    /** One pass through the `if (name === …)` blocks for one call. */
    method Apply(name: string, args: Args, rand: nat -> string, k: nat)
      returns (action: Option<Action>, result: Option<CallResult>, draws: nat)
      modifies this
      ensures var e := NewGameEffect(old(State()), name, args, rand, k);
              State() == e.world && action == e.action && result == e.result && draws == e.draws
    {
      action, result, draws := None, None, k;
      if name == "create_map" {
        if ValidMapArgs(args) {
          var rows := RowStrings(args.rows.value);
          worldMap := MapRecord(args.w, args.h, rows, if args.legend.Some? then args.legend.value else worldMap.legend);
          result := Some(MapAccepted(args.w, |rows|));
          action := Some(CreateMap(args.w, |rows|, rows));
        } else {
          result := Some(MapInvalid);
        }
      }
      if name == "spawn_npc" {
        var npc := NpcFrom(args, rand(draws));
        draws := draws + 1;
        npcs := npcs + [npc];
        result := Some(NpcSpawned(npc));
        action := Some(SpawnNpc(npc));
      }
      if name == "spawn_enemy" {
        var enemy := EnemyFrom(args, rand(draws));
        draws := draws + 1;
        enemies := enemies + [enemy];
        result := Some(EnemySpawned(enemy));
        action := Some(SpawnEnemy(enemy));
      }
      if name == "place_item" {
        var item := ItemFrom(args, rand(draws));
        draws := draws + 1;
        items := items + [item];
        result := Some(ItemPlaced(item));
        action := Some(PlaceItem(item));
      }
      if name == "set_waypoint" {
        waypoint := Some(WaypointFrom(args));
        result := Some(WaypointSet(waypoint.value));
        action := Some(SetWaypoint(waypoint.value));
      }
      if name == "give_quests" {
        result := Some(QuestsGiven(StartQuests));
        action := Some(GiveQuests(StartQuests));
      }
      if name == "modify_tiles" {
        var changes := ChangesFrom(args);
        var note := StringOr(args.note, "");
        result := Some(TilesChanged(|changes|, note));
        action := Some(ModifyTiles(changes, note));
      }
      if name == "offer_replies" {
        var options := RepliesFrom(args);
        result := Some(RepliesOffered(options));
        action := Some(DialogueOptions(options));
      }
    }
  }

  // ----- one round -----

  datatype RoundOutcome = RoundOutcome(world: WorldState, actions: seq<Action>, outputs: seq<Output>, draws: nat)

  /** The `for (const call of calls)` loop after its first n calls; `None`
      once some call's arguments failed to parse. */
  function DispatchPrefix(w: WorldState, calls: seq<Block>, rand: nat -> string, k: nat, n: nat): Option<RoundOutcome>
    requires n <= |calls|
  {
    if n == 0 then Some(RoundOutcome(w, [], [], k))
    else match DispatchPrefix(w, calls, rand, k, n - 1)
      case None => None
      case Some(o) =>
        var call := calls[n - 1];
        match ArgsOf(call.arguments)
        case None => None
        case Some(args) =>
          var e := NewGameEffect(o.world, call.name, args, rand, o.draws);
          Some(RoundOutcome(e.world, o.actions + OptionSeq(e.action),
                            o.outputs + (if e.result.Some? then [Output(call.id, e.result.value)] else []),
                            e.draws))
  }

  function Dispatch(w: WorldState, calls: seq<Block>, rand: nat -> string, k: nat): Option<RoundOutcome>
  {
    DispatchPrefix(w, calls, rand, k, |calls|)
  }

  /** Once a parse has failed, the rest of the round does not matter. */
  lemma {:induction false} DispatchStaysFailed(w: WorldState, calls: seq<Block>, rand: nat -> string, k: nat, n: nat, m: nat)
    requires n <= m <= |calls| && DispatchPrefix(w, calls, rand, k, n) == None
    ensures DispatchPrefix(w, calls, rand, k, m) == None
    decreases m - n
  {
    if n < m {
      DispatchStaysFailed(w, calls, rand, k, n + 1, m);
    }
  }

  /** Tool outputs come one per call with a recognised name, in call order,
      each with that call's id; an action is echoed only for a call that
      also has an output. */
  lemma {:induction false} DispatchOutputs(w: WorldState, calls: seq<Block>, rand: nat -> string, k: nat, n: nat)
    requires n <= |calls| && DispatchPrefix(w, calls, rand, k, n).Some?
    ensures var o := DispatchPrefix(w, calls, rand, k, n).value;
            OutputIds(o.outputs) == IdsNamed(calls[..n], NewGameNames) && |o.actions| <= |o.outputs|
  {
    if n > 0 {
      DispatchOutputs(w, calls, rand, k, n - 1);
      var o := DispatchPrefix(w, calls, rand, k, n - 1).value;
      var call := calls[n - 1];
      var e := NewGameEffect(o.world, call.name, ArgsOf(call.arguments).value, rand, o.draws);
      var out := if e.result.Some? then [Output(call.id, e.result.value)] else [];
      assert DispatchPrefix(w, calls, rand, k, n).value ==
               RoundOutcome(e.world, o.actions + OptionSeq(e.action), o.outputs + out, e.draws);
      IdsNamedStep(calls, n, NewGameNames);
      OutputIdsAppend(o.outputs, out);
    }
  }

  // ----- the world as a replay of the echoed actions -----

  /** The effect an echoed action has on the server's world; `modify_tiles`
      never reaches `world.map`. */
  function Echo(w: WorldState, a: Action): WorldState
  {
    match a
    case CreateMap(mw, h, rows) => w.(worldMap := w.worldMap.(w := mw, h := Some(h), rows := rows))
    case SpawnNpc(n) => w.(npcs := w.npcs + [n])
    case SpawnEnemy(e) => w.(enemies := w.enemies + [e])
    case PlaceItem(it) => w.(items := w.items + [it])
    case SetWaypoint(wp) => w.(waypoint := Some(wp))
    case _ => w
  }

  function Replay(w: WorldState, acts: seq<Action>): WorldState
  {
    if acts == [] then w else Echo(Replay(w, acts[..|acts| - 1]), acts[|acts| - 1])
  }

  /** The world without its legend, which the echoed actions do not carry. */
  function Visible(w: WorldState): WorldState
  {
    w.(worldMap := w.worldMap.(legend := map[]))
  }

  lemma {:induction false} ReplayAppend(w: WorldState, a: seq<Action>, b: seq<Action>)
    ensures Replay(w, a + b) == Replay(Replay(w, a), b)
    decreases |b|
  {
    if b == [] {
      assert a + b == a;
    } else {
      assert (a + b)[..|a + b| - 1] == a + b[..|b| - 1];
      ReplayAppend(w, a, b[..|b| - 1]);
    }
  }

  lemma {:induction false} ReplayVisible(w: WorldState, acts: seq<Action>)
    ensures Visible(Replay(w, acts)) == Visible(Replay(Visible(w), acts))
    decreases |acts|
  {
    if acts != [] {
      ReplayVisible(w, acts[..|acts| - 1]);
    }
  }

  /** One call changes the world exactly as replaying its echo would. */
  lemma EffectIsEcho(w: WorldState, name: string, args: Args, rand: nat -> string, k: nat)
    ensures var e := NewGameEffect(w, name, args, rand, k);
            Visible(e.world) == Visible(if e.action.Some? then Echo(w, e.action.value) else w)
  {
  }

  /** After a round, the world is the start world with the round's echoed
      actions replayed on it. */
  lemma {:induction false} DispatchIsReplay(w: WorldState, calls: seq<Block>, rand: nat -> string, k: nat, n: nat)
    requires n <= |calls| && DispatchPrefix(w, calls, rand, k, n).Some?
    ensures var o := DispatchPrefix(w, calls, rand, k, n).value;
            Visible(o.world) == Visible(Replay(w, o.actions))
  {
    if n > 0 {
      DispatchIsReplay(w, calls, rand, k, n - 1);
      var o := DispatchPrefix(w, calls, rand, k, n - 1).value;
      var call := calls[n - 1];
      var args := ArgsOf(call.arguments).value;
      var e := NewGameEffect(o.world, call.name, args, rand, o.draws);
      EffectIsEcho(o.world, call.name, args, rand, o.draws);
      ReplayAppend(w, o.actions, OptionSeq(e.action));
      ReplayVisible(Replay(w, o.actions), OptionSeq(e.action));
      ReplayVisible(o.world, OptionSeq(e.action));
    }
  }

  // ----- the rounds -----

  /** The handler's variables between rounds: `used` generator calls have
      been made and `response` is the latest. */
  datatype LoopState = LoopState(world: WorldState, actions: seq<Action>, followUps: seq<seq<Output>>,
                                 response: Response, used: nat, draws: nat)

  /** `for (let round = 0; round < 4; round++)` from `round` on; `None` when
      a parse or a generator call fails. */
  function Rounds(s: LoopState, round: nat, gen: seq<Response>, rand: nat -> string): Option<LoopState>
    decreases 4 - round
  {
    if round >= 4 then Some(s)
    else
      var calls := ToolCalls(TopBlocks(s.response));
      if calls == [] then Some(s)
      else match Dispatch(s.world, calls, rand, s.draws)
        case None => None
        case Some(o) =>
          var s' := s.(world := o.world, actions := s.actions + o.actions, draws := o.draws);
          if o.outputs == [] then Some(s')
          else if s.used >= |gen| then None
          else Rounds(s'.(followUps := s.followUps + [o.outputs], response := gen[s.used], used := s.used + 1),
                      round + 1, gen, rand)
  }

  const IntroFallback: string := "Вы пришли на поляну…"

  /** `res.json({ text: intro, world, actions })`, plus the tool outputs
      sent back to the generator round by round; `NewGameFailed` is the
      500 reply. */
  datatype NewGameReply =
    | NewGameOk(text: string, world: WorldState, actions: seq<Action>, followUps: seq<seq<Output>>)
    | NewGameFailed

  function NewGameSpec(size: Option<Size>, gen: seq<Response>, rand: nat -> string): NewGameReply
  {
    if gen == [] then NewGameFailed
    else match Rounds(LoopState(InitialWorld(size), [], [], gen[0], 1, 0), 0, gen, rand)
      case None => NewGameFailed
      case Some(s) => NewGameOk(StringOr(Some(s.response.outputText), IntroFallback), s.world, s.actions, s.followUps)
  }

  /** The `for (const call of calls)` loop of one round: each call's
      arguments are parsed and the call is applied to `world`; `None` when
      a parse fails. */
  method DispatchRound(world: World, calls: seq<Block>, rand: nat -> string, k: nat)
    returns (outcome: Option<RoundOutcome>)
    modifies world
    ensures outcome == Dispatch(old(world.State()), calls, rand, k)
    ensures outcome.Some? ==> world.State() == outcome.value.world
  {
    ghost var w0 := world.State();
    var actions: seq<Action> := [];
    var outputs: seq<Output> := [];
    var draws := k;
    var i := 0;
    while i < |calls|
      invariant 0 <= i <= |calls|
      invariant DispatchPrefix(w0, calls, rand, k, i) == Some(RoundOutcome(world.State(), actions, outputs, draws))
    {
      var call := calls[i];
      var parsed := ArgsOf(call.arguments);
      if parsed == None {
        DispatchStaysFailed(w0, calls, rand, k, i + 1, |calls|);
        return None;
      }
      var action, result, draws' := world.Apply(call.name, parsed.value, rand, draws);
      if action.Some? {
        actions := actions + [action.value];
      } else {
        assert actions + OptionSeq(action) == actions;
      }
      if result.Some? {
        outputs := outputs + [Output(call.id, result.value)];
      } else {
        assert outputs + [] == outputs;
      }
      draws := draws';
      i := i + 1;
    }
    outcome := Some(RoundOutcome(world.State(), actions, outputs, draws));
  }

  /** The handler: the first generator call, then the bounded round loop. */
  method NewGameRequest(size: Option<Size>, gen: seq<Response>, rand: nat -> string) returns (reply: NewGameReply)
    ensures reply == NewGameSpec(size, gen, rand)
  {
    if |gen| == 0 {
      return NewGameFailed;
    }
    var world := new World(size);
    var response := gen[0];
    var used := 1;
    var actions: seq<Action> := [];
    var followUps: seq<seq<Output>> := [];
    var draws := 0;
    ghost var final := Rounds(LoopState(InitialWorld(size), [], [], gen[0], 1, 0), 0, gen, rand);
    var round := 0;
    while round < 4
      invariant 0 <= round <= 4
      invariant Rounds(LoopState(world.State(), actions, followUps, response, used, draws), round, gen, rand) == final
      decreases 4 - round
    {
      var calls := ExtractToolCalls(response);
      if |calls| == 0 {
        break;
      }
      var outcome := DispatchRound(world, calls, rand, draws);
      if outcome == None {
        return NewGameFailed;
      }
      var outputs := outcome.value.outputs;
      actions := actions + outcome.value.actions;
      draws := outcome.value.draws;
      if |outputs| == 0 {
        break;
      }
      if used >= |gen| {
        return NewGameFailed;
      }
      followUps := followUps + [outputs];
      response := gen[used];
      used := used + 1;
      round := round + 1;
    }
    reply := NewGameOk(StringOr(Some(response.outputText), IntroFallback), world.State(), actions, followUps);
  }

  // ----- properties of the whole request -----

  /** The ids of the calls in the i-th response whose names are in the
      tool table `names`. */
  function RoundIds(gen: seq<Response>, i: nat, names: set<string>): seq<string>
    requires i < |gen|
  {
    IdsNamed(ToolCalls(TopBlocks(gen[i])), names)
  }

  /** Facts that hold of every state the rounds pass through: round i
      answered the i-th response, and the world is the replay of the
      actions echoed so far. */
  ghost predicate Consistent(s: LoopState, w0: WorldState, gen: seq<Response>)
  {
    && 1 <= s.used <= |gen| && s.response == gen[s.used - 1] && s.used == |s.followUps| + 1
    && Visible(s.world) == Visible(Replay(w0, s.actions))
  }

  /** Every follow-up sent so far carries one output per recognised call of
      the response it answers, and none is empty. */
  predicate Answered(followUps: seq<seq<Output>>, gen: seq<Response>, names: set<string>)
    decreases |followUps|
  {
    && |followUps| < |gen|
    && (followUps != [] ==>
          var n := |followUps| - 1;
          && Answered(followUps[..n], gen, names)
          && followUps[n] != [] && OutputIds(followUps[n]) == RoundIds(gen, n, names))
  }

  /** `Answered`, follow-up by follow-up. */
  lemma {:induction false} AnsweredEach(followUps: seq<seq<Output>>, gen: seq<Response>, names: set<string>)
    requires Answered(followUps, gen, names)
    ensures forall i :: 0 <= i < |followUps| ==>
              followUps[i] != [] && OutputIds(followUps[i]) == RoundIds(gen, i, names)
    decreases |followUps|
  {
    if followUps != [] {
      AnsweredEach(followUps[..|followUps| - 1], gen, names);
    }
  }

  /** One round from a consistent state: the dispatch of its response's
      calls, and the consistent state that follows it. */
  lemma RoundStep(s: LoopState, gen: seq<Response>, rand: nat -> string, w0: WorldState) returns (o: RoundOutcome)
    requires Consistent(s, w0, gen)
    requires Dispatch(s.world, ToolCalls(TopBlocks(s.response)), rand, s.draws).Some?
    ensures o == Dispatch(s.world, ToolCalls(TopBlocks(s.response)), rand, s.draws).value
    ensures Consistent(s.(world := o.world, actions := s.actions + o.actions, draws := o.draws), w0, gen)
  {
    var calls := ToolCalls(TopBlocks(s.response));
    o := Dispatch(s.world, calls, rand, s.draws).value;
    DispatchIsReplay(s.world, calls, rand, s.draws, |calls|);
    ReplayVisible(s.world, o.actions);
    ReplayVisible(Replay(w0, s.actions), o.actions);
    ReplayAppend(w0, s.actions, o.actions);
  }

  lemma {:induction false} RoundsKeep(s: LoopState, round: nat, gen: seq<Response>, rand: nat -> string, w0: WorldState)
    requires round <= 4 && Consistent(s, w0, gen) && Rounds(s, round, gen, rand).Some?
    ensures var t := Rounds(s, round, gen, rand).value;
            && Consistent(t, w0, gen)
            && |t.followUps| <= |s.followUps| + (4 - round)
            && s.actions <= t.actions
    decreases 4 - round
  {
    if round < 4 && ToolCalls(TopBlocks(s.response)) != [] {
      var o := RoundStep(s, gen, rand, w0);
      if o.outputs != [] {
        var s' := s.(world := o.world, actions := s.actions + o.actions, draws := o.draws);
        RoundsKeep(s'.(followUps := s.followUps + [o.outputs], response := gen[s.used], used := s.used + 1),
                   round + 1, gen, rand, w0);
      }
    }
  }

  /** The outputs of one round answer its response's recognised calls. */
  lemma RoundOutputIds(s: LoopState, gen: seq<Response>, rand: nat -> string, o: RoundOutcome)
    requires s.used == |s.followUps| + 1 && s.used <= |gen| && s.response == gen[s.used - 1]
    requires Dispatch(s.world, ToolCalls(TopBlocks(s.response)), rand, s.draws) == Some(o)
    ensures OutputIds(o.outputs) == RoundIds(gen, |s.followUps|, NewGameNames)
  {
    var calls := ToolCalls(TopBlocks(s.response));
    DispatchOutputs(s.world, calls, rand, s.draws, |calls|);
    assert calls[..|calls|] == calls;
  }

  /** A new non-empty follow-up answering the next response keeps every
      earlier one. */
  lemma AnsweredAppend(followUps: seq<seq<Output>>, outputs: seq<Output>, gen: seq<Response>, names: set<string>)
    requires Answered(followUps, gen, names) && |followUps| + 1 < |gen|
    requires outputs != [] && OutputIds(outputs) == RoundIds(gen, |followUps|, names)
    ensures Answered(followUps + [outputs], gen, names)
  {
    assert (followUps + [outputs])[..|followUps|] == followUps;
  }

  /** The rounds keep `Answered`, and they stop before the fourth only at
      a response with no recognised call. */
  lemma {:induction false} RoundsAnswer(s: LoopState, round: nat, gen: seq<Response>, rand: nat -> string)
    requires round <= 4 && s.used == |s.followUps| + 1 && s.used <= |gen| && s.response == gen[s.used - 1]
    requires Answered(s.followUps, gen, NewGameNames) && Rounds(s, round, gen, rand).Some?
    ensures var t := Rounds(s, round, gen, rand).value;
            && Answered(t.followUps, gen, NewGameNames)
            && (|t.followUps| < |s.followUps| + (4 - round) ==> RoundIds(gen, |t.followUps|, NewGameNames) == [])
    decreases 4 - round
  {
    if round < 4 {
      var calls := ToolCalls(TopBlocks(s.response));
      if calls == [] {
        assert RoundIds(gen, |s.followUps|, NewGameNames) == IdsNamed([], NewGameNames) == [];
      } else {
        var o := Dispatch(s.world, calls, rand, s.draws).value;
        RoundOutputIds(s, gen, rand, o);
        if o.outputs == [] {
          assert RoundIds(gen, |s.followUps|, NewGameNames) == OutputIds([]) == [];
        } else {
          AnsweredAppend(s.followUps, o.outputs, gen, NewGameNames);
          var s' := s.(world := o.world, actions := s.actions + o.actions, draws := o.draws);
          RoundsAnswer(s'.(followUps := s.followUps + [o.outputs], response := gen[s.used], used := s.used + 1),
                       round + 1, gen, rand);
        }
      }
    }
  }

  /** The state the rounds end in, with the facts `RoundsKeep` and
      `RoundsAnswer` give. */
  lemma FinalState(size: Option<Size>, gen: seq<Response>, rand: nat -> string) returns (t: LoopState)
    requires NewGameSpec(size, gen, rand).NewGameOk?
    ensures Consistent(t, InitialWorld(size), gen) && |t.followUps| <= 4
    ensures Answered(t.followUps, gen, NewGameNames)
    ensures |t.followUps| < 4 ==> RoundIds(gen, |t.followUps|, NewGameNames) == []
    ensures NewGameSpec(size, gen, rand) ==
              NewGameOk(StringOr(Some(t.response.outputText), IntroFallback), t.world, t.actions, t.followUps)
  {
    var s0 := LoopState(InitialWorld(size), [], [], gen[0], 1, 0);
    assert Visible(s0.world) == Visible(Replay(InitialWorld(size), []));
    RoundsKeep(s0, 0, gen, rand, InitialWorld(size));
    RoundsAnswer(s0, 0, gen, rand);
    t := Rounds(s0, 0, gen, rand).value;
  }

  /** At most four rounds: the generator is called at most five times, and
      the reply's text is the last response's `output_text`, or the intro
      fallback when that is empty. */
  lemma NewGameBounded(size: Option<Size>, gen: seq<Response>, rand: nat -> string)
    requires NewGameSpec(size, gen, rand).NewGameOk?
    ensures var r := NewGameSpec(size, gen, rand);
            && |r.followUps| <= 4 && |r.followUps| < |gen|
            && var last := gen[|r.followUps|].outputText;
               r.text == (if last != "" then last else IntroFallback)
  {
    var t := FinalState(size, gen, rand);
  }

  /** The world in the reply is the initial world with every echoed action
      replayed in order (the legend aside): entities only come from spawn
      actions, the map only from an accepted `create_map`, and the waypoint
      from the last `set_waypoint`. */
  lemma NewGameWorldIsReplay(size: Option<Size>, gen: seq<Response>, rand: nat -> string)
    requires NewGameSpec(size, gen, rand).NewGameOk?
    ensures var r := NewGameSpec(size, gen, rand);
            Visible(r.world) == Visible(Replay(InitialWorld(size), r.actions))
  {
    var t := FinalState(size, gen, rand);
  }

  /** Each follow-up call sends back one tool output per recognised call
      of the response it answers, in order, and none is sent empty. */
  lemma NewGameFollowUps(size: Option<Size>, gen: seq<Response>, rand: nat -> string)
    requires NewGameSpec(size, gen, rand).NewGameOk?
    ensures var r := NewGameSpec(size, gen, rand);
            forall i :: 0 <= i < |r.followUps| ==>
              r.followUps[i] != [] && OutputIds(r.followUps[i]) == RoundIds(gen, i, NewGameNames)
  {
    var t := FinalState(size, gen, rand);
    AnsweredEach(t.followUps, gen, NewGameNames);
  }

  /** The loop stops early only at a response with no recognised call:
      either it proposes no tool call or none of its calls gets an output. */
  lemma NewGameStops(size: Option<Size>, gen: seq<Response>, rand: nat -> string)
    requires NewGameSpec(size, gen, rand).NewGameOk?
    ensures var r := NewGameSpec(size, gen, rand);
            |r.followUps| < 4 ==> RoundIds(gen, |r.followUps|, NewGameNames) == []
  {
    var t := FinalState(size, gen, rand);
  }

  /** When each of the first four responses has a recognised call (and the
      request succeeds, so every argument parsed), all four rounds run. */
  lemma NewGameFullRounds(size: Option<Size>, gen: seq<Response>, rand: nat -> string)
    requires NewGameSpec(size, gen, rand).NewGameOk?
    requires forall i :: 0 <= i < 4 && i < |gen| ==> RoundIds(gen, i, NewGameNames) != []
    ensures |NewGameSpec(size, gen, rand).followUps| == 4 && |gen| >= 5
  {
    NewGameStops(size, gen, rand);
    NewGameBounded(size, gen, rand);
  }

  /** When the first response proposes no tool call, the reply is the empty
      world with no actions and that response's text. */
  lemma NoCallsNoRounds(size: Option<Size>, gen: seq<Response>, rand: nat -> string)
    requires gen != [] && ToolCalls(TopBlocks(gen[0])) == []
    ensures NewGameSpec(size, gen, rand) ==
              NewGameOk(StringOr(Some(gen[0].outputText), IntroFallback), InitialWorld(size), [], [])
  {
  }

  function NpcsIn(acts: seq<Action>): seq<Npc>
  {
    if acts == [] then []
    else NpcsIn(acts[..|acts| - 1]) + (if acts[|acts| - 1].SpawnNpc? then [acts[|acts| - 1].npc] else [])
  }

  function LastWaypoint(acts: seq<Action>, before: Option<Waypoint>): Option<Waypoint>
  {
    if acts == [] then before
    else if acts[|acts| - 1].SetWaypoint? then Some(acts[|acts| - 1].waypoint)
    else LastWaypoint(acts[..|acts| - 1], before)
  }

  /** Replaying appends one NPC per `spawn_npc` action, in order. */
  lemma {:induction false} ReplayNpcs(w: WorldState, acts: seq<Action>)
    ensures Replay(w, acts).npcs == w.npcs + NpcsIn(acts)
    decreases |acts|
  {
    if acts != [] {
      ReplayNpcs(w, acts[..|acts| - 1]);
    }
  }

  /** The waypoint after a replay is the one of the last `set_waypoint`:
      the last write wins. */
  lemma {:induction false} ReplayWaypoint(w: WorldState, acts: seq<Action>)
    ensures Replay(w, acts).waypoint == LastWaypoint(acts, w.waypoint)
    decreases |acts|
  {
    if acts != [] {
      ReplayWaypoint(w, acts[..|acts| - 1]);
    }
  }

  /** Without a `create_map` action the rows of the map stay as they were. */
  lemma {:induction false} ReplayKeepsRows(w: WorldState, acts: seq<Action>)
    requires forall i :: 0 <= i < |acts| ==> !acts[i].CreateMap?
    ensures Replay(w, acts).worldMap.rows == w.worldMap.rows
    decreases |acts|
  {
    if acts != [] {
      ReplayKeepsRows(w, acts[..|acts| - 1]);
    }
  }
}
