/** `/api/agent`: one NPC dialogue turn. The generator proposes tool calls,
    each recognised call is turned into an action for the client (nothing is
    stored on the server), and when any call produced a tool output the
    generator is asked once more for the NPC's line. */
module Agent {
  import opened Js
  import opened Wire
  import opened ServerCalls
  import NewGame

  /** The names the dialogue dispatch recognises, in the order of its
      `if (name === …)` blocks. */
  const AgentNames: set<string> :=
    {"give_quests", "set_waypoint", "spawn_item", "spawn_enemy", "spawn_npc",
     "modify_tiles", "offer_replies", "create_map"}

  /** The recognised names that also echo an action: all but `create_map`. */
  const EchoNames: set<string> := AgentNames - {"create_map"}

  /** The names whose handler draws one `Math.random()` for an id. */
  const RandomNames: set<string> := {"spawn_item", "spawn_enemy", "spawn_npc"}

  /** What one call yields: the echoed action, the result that becomes the
      tool output, and how many random draws have been used. */
  datatype CallEffect = CallEffect(action: Option<Action>, result: Option<CallResult>, draws: nat)

  /** The dispatch on `call.name` in `/api/agent`; `rand(k)` is the id
      suffix made from the k-th `Math.random()` of the request. */
  function AgentEffect(name: string, args: Args, rand: nat -> string, k: nat): (e: CallEffect)
    ensures e.result.Some? <==> name in AgentNames
    ensures e.action.Some? <==> name in EchoNames
    ensures e.action.Some? ==> !e.action.value.CreateMap?
    ensures e.draws == if name in RandomNames then k + 1 else k
  {
    if name == "give_quests" then
      CallEffect(Some(GiveQuests(AgentQuests)), Some(QuestsGiven(AgentQuests)), k)
    else if name == "set_waypoint" then
      var wp := WaypointFrom(args);
      CallEffect(Some(SetWaypoint(wp)), Some(WaypointSet(wp)), k)
    else if name == "spawn_item" then
      var item := ItemFrom(args, rand(k));
      CallEffect(Some(PlaceItem(item)), Some(ItemPlaced(item)), k + 1)
    else if name == "spawn_enemy" then
      var enemy := EnemyFrom(args, rand(k));
      CallEffect(Some(SpawnEnemy(enemy)), Some(EnemySpawned(enemy)), k + 1)
    else if name == "spawn_npc" then
      var npc := NpcFrom(args, rand(k));
      CallEffect(Some(SpawnNpc(npc)), Some(NpcSpawned(npc)), k + 1)
    else if name == "modify_tiles" then
      var changes := ChangesFrom(args);
      var note := StringOr(args.note, "");
      CallEffect(Some(ModifyTiles(changes, note)), Some(TilesChanged(|changes|, note)), k)
    else if name == "offer_replies" then
      var options := RepliesFrom(args);
      CallEffect(Some(DialogueOptions(options)), Some(RepliesOffered(options)), k)
    else if name == "create_map" then
      CallEffect(None, Some(MapDisabled), k)
    else CallEffect(None, None, k)
  }

  /** Both handlers build the same payload for the calls they share, and the
      dialogue's `spawn_item` builds what `place_item` builds at world
      creation; only `give_quests` hands out a different fixed list, and
      `create_map` is refused in dialogue. */
  lemma AgreesWithNewGame(w: NewGame.WorldState, name: string, args: Args, rand: nat -> string, k: nat)
    ensures name in {"set_waypoint", "spawn_enemy", "spawn_npc", "modify_tiles", "offer_replies"} ==>
              AgentEffect(name, args, rand, k).action == NewGame.NewGameEffect(w, name, args, rand, k).action
    ensures AgentEffect("spawn_item", args, rand, k).action ==
              NewGame.NewGameEffect(w, "place_item", args, rand, k).action
    ensures AgentEffect("give_quests", args, rand, k).action == Some(GiveQuests(AgentQuests)) &&
            NewGame.NewGameEffect(w, "give_quests", args, rand, k).action == Some(GiveQuests(StartQuests))
    ensures AgentEffect("create_map", args, rand, k) == CallEffect(None, Some(MapDisabled), k)
  {
  }

  // ----- the dispatch loop -----

  datatype Round = Round(actions: seq<Action>, outputs: seq<Output>, draws: nat)

  /** The `for (const call of extractToolCalls(response))` loop after its
      first n calls; `None` once some call's arguments failed to parse. */
  function AgentPrefix(calls: seq<Block>, rand: nat -> string, k: nat, n: nat): Option<Round>
    requires n <= |calls|
  {
    if n == 0 then Some(Round([], [], k))
    else match AgentPrefix(calls, rand, k, n - 1)
      case None => None
      case Some(o) =>
        var call := calls[n - 1];
        match ArgsOf(call.arguments)
        case None => None
        case Some(args) =>
          var e := AgentEffect(call.name, args, rand, o.draws);
          Some(Round(o.actions + OptionSeq(e.action),
                     o.outputs + (if e.result.Some? then [Output(call.id, e.result.value)] else []),
                     e.draws))
  }

  lemma {:induction false} AgentStaysFailed(calls: seq<Block>, rand: nat -> string, k: nat, n: nat, m: nat)
    requires n <= m <= |calls| && AgentPrefix(calls, rand, k, n) == None
    ensures AgentPrefix(calls, rand, k, m) == None
    decreases m - n
  {
    if n < m {
      AgentStaysFailed(calls, rand, k, n + 1, m);
    }
  }

  /** How a successful prefix one call longer comes about. */
  lemma AgentPrefixStep(calls: seq<Block>, rand: nat -> string, k: nat, n: nat) returns (o: Round, e: CallEffect)
    requires 0 < n <= |calls| && AgentPrefix(calls, rand, k, n).Some?
    ensures AgentPrefix(calls, rand, k, n - 1) == Some(o)
    ensures ArgsOf(calls[n - 1].arguments).Some?
    ensures e == AgentEffect(calls[n - 1].name, ArgsOf(calls[n - 1].arguments).value, rand, o.draws)
    ensures AgentPrefix(calls, rand, k, n).value ==
              Round(o.actions + OptionSeq(e.action),
                    o.outputs + (if e.result.Some? then [Output(calls[n - 1].id, e.result.value)] else []),
                    e.draws)
  {
    o := AgentPrefix(calls, rand, k, n - 1).value;
    e := AgentEffect(calls[n - 1].name, ArgsOf(calls[n - 1].arguments).value, rand, o.draws);
  }

  /** One tool output per recognised call, in call order and with the
      call's id. */
  lemma {:induction false} AgentOutputs(calls: seq<Block>, rand: nat -> string, k: nat, n: nat)
    requires n <= |calls| && AgentPrefix(calls, rand, k, n).Some?
    ensures OutputIds(AgentPrefix(calls, rand, k, n).value.outputs) == IdsNamed(calls[..n], AgentNames)
  {
    if n > 0 {
      var o, e := AgentPrefixStep(calls, rand, k, n);
      AgentOutputs(calls, rand, k, n - 1);
      IdsNamedStep(calls, n, AgentNames);
      OutputIdsAppend(o.outputs, if e.result.Some? then [Output(calls[n - 1].id, e.result.value)] else []);
    }
  }

  /** One action per recognised call other than `create_map`, and never a
      `create_map` action. */
  lemma {:induction false} AgentActions(calls: seq<Block>, rand: nat -> string, k: nat, n: nat)
    requires n <= |calls| && AgentPrefix(calls, rand, k, n).Some?
    ensures var acts := AgentPrefix(calls, rand, k, n).value.actions;
            && |acts| == |IdsNamed(calls[..n], EchoNames)|
            && forall i :: 0 <= i < |acts| ==> !acts[i].CreateMap?
  {
    if n > 0 {
      var o, e := AgentPrefixStep(calls, rand, k, n);
      AgentActions(calls, rand, k, n - 1);
      IdsNamedStep(calls, n, EchoNames);
    }
  }

  /** The dispatch loop of the handler: `actions` and `tool_outputs` grow
      call by call; `None` when a call's arguments fail to parse. */
  method AgentDispatch(calls: seq<Block>, rand: nat -> string, k: nat) returns (round: Option<Round>)
    ensures round == AgentPrefix(calls, rand, k, |calls|)
  {
    var actions: seq<Action> := [];
    var outputs: seq<Output> := [];
    var draws := k;
    var i := 0;
    while i < |calls|
      invariant 0 <= i <= |calls|
      invariant AgentPrefix(calls, rand, k, i) == Some(Round(actions, outputs, draws))
    {
      var call := calls[i];
      var parsed := ArgsOf(call.arguments);
      if parsed == None {
        AgentStaysFailed(calls, rand, k, i + 1, |calls|);
        return None;
      }
      var e := AgentEffect(call.name, parsed.value, rand, draws);
      if e.action.Some? {
        actions := actions + [e.action.value];
      } else {
        assert actions + OptionSeq(e.action) == actions;
      }
      if e.result.Some? {
        outputs := outputs + [Output(call.id, e.result.value)];
      } else {
        assert outputs + [] == outputs;
      }
      draws := e.draws;
      i := i + 1;
    }
    round := Some(Round(actions, outputs, draws));
  }

  // ----- the dialogue history -----

  /** The label of a turn: the player, the NPC by name, or the system. */
  function Speaker(npcName: Option<string>, t: Turn): string
  {
    if t.speaker == "player" then "Игрок"
    else if t.speaker == "npc" then StringOr(npcName, "NPC")
    else "Система"
  }

  function HistoryLine(npcName: Option<string>, t: Turn): (line: string)
    ensures |line| > 0
  {
    Speaker(npcName, t) + ": " + t.text
  }

  function Lines(npcName: Option<string>, ts: seq<Turn>): (ls: seq<string>)
    ensures |ls| == |ts| && forall i :: 0 <= i < |ts| ==> ls[i] == HistoryLine(npcName, ts[i])
  {
    seq(|ts|, i requires 0 <= i < |ts| => HistoryLine(npcName, ts[i]))
  }

  /** `lines.join('\n')` */
  function JoinLines(ls: seq<string>): string
  {
    if ls == [] then ""
    else if |ls| == 1 then ls[0]
    else JoinLines(ls[..|ls| - 1]) + "\n" + ls[|ls| - 1]
  }

  /** `histText`: the last six turns, one labelled line each. */
  function HistoryText(npcName: Option<string>, history: seq<Turn>): string
  {
    JoinLines(Lines(npcName, LastN(history, 6)))
  }

  /** The dialogue-context message sent to the generator. */
  function DialogueContext(npcName: Option<string>, history: seq<Turn>): string
  {
    var h := HistoryText(npcName, history);
    "Контекст диалога:\n" + (if h == "" then "—" else h)
  }

  /** Turns older than the last six never reach the generator. */
  lemma HistoryWindow(npcName: Option<string>, older: seq<Turn>, recent: seq<Turn>)
    requires |recent| >= 6
    ensures HistoryText(npcName, older + recent) == HistoryText(npcName, recent)
  {
    assert LastN(older + recent, 6) == LastN(recent, 6);
  }

  lemma {:induction false} JoinLinesEmpty(ls: seq<string>)
    requires forall i :: 0 <= i < |ls| ==> |ls[i]| > 0
    ensures JoinLines(ls) == "" <==> ls == []
    decreases |ls|
  {
    if |ls| > 1 {
      JoinLinesEmpty(ls[..|ls| - 1]);
    }
  }

  /** The history text is empty exactly when there is no history, so the
      placeholder "—" is sent only then. */
  lemma HistoryEmpty(npcName: Option<string>, history: seq<Turn>)
    ensures HistoryText(npcName, history) == "" <==> history == []
    ensures DialogueContext(npcName, history) == "Контекст диалога:\n—" <==> history == []
  {
    var ls := Lines(npcName, LastN(history, 6));
    JoinLinesEmpty(ls);
    var h := HistoryText(npcName, history);
  }

  /** A new turn adds one line at the end and pushes the oldest of six out. */
  lemma HistoryAppend(npcName: Option<string>, history: seq<Turn>, t: Turn)
    requires history != []
    ensures HistoryText(npcName, history + [t]) ==
              JoinLines(Lines(npcName, LastN(history, 5))) + "\n" + HistoryLine(npcName, t)
  {
    var ts := LastN(history + [t], 6);
    var ls := Lines(npcName, ts);
    assert |ts| >= 2 && ts[|ts| - 1] == t;
    assert ts[..|ts| - 1] == LastN(history, 5);
    assert ls[..|ls| - 1] == Lines(npcName, LastN(history, 5));
    assert JoinLines(ls) == JoinLines(ls[..|ls| - 1]) + "\n" + ls[|ls| - 1];
  }

  // ----- the request -----

  /** `{ text, actions }`, plus the tool outputs sent in the follow-up
      generator call when there was one; `AgentFailed` is the 500 reply. */
  datatype AgentReply =
    | AgentOk(text: string, actions: seq<Action>, followUp: Option<seq<Output>>)
    | AgentFailed

  /** What the NPC "says" when the generator gave no text. */
  const Nod: string := " молча кивает."

  /** `response.output_text || (npc?.name || 'NPC') + ' молча кивает.'` */
  function ReplyText(npcName: Option<string>, outputText: string): (r: string)
    ensures outputText != "" ==> r == outputText
    ensures outputText == "" ==> r == (if npcName.Some? && npcName.value != "" then npcName.value else "NPC") + Nod
  {
    StringOr(Some(outputText), StringOr(npcName, "NPC") + Nod)
  }

  /** The handler as a function of the generator's responses `gen`, in
      order, and the random id suffixes. */
  function AgentSpec(npcName: Option<string>, gen: seq<Response>, rand: nat -> string): AgentReply
  {
    if gen == [] then AgentFailed
    else
      var calls := ToolCalls(TopBlocks(gen[0]));
      match AgentPrefix(calls, rand, 0, |calls|)
      case None => AgentFailed
      case Some(o) =>
        if o.outputs == [] then AgentOk(ReplyText(npcName, gen[0].outputText), o.actions, None)
        else if |gen| < 2 then AgentFailed
        else AgentOk(ReplyText(npcName, gen[1].outputText), o.actions, Some(o.outputs))
  }

  /** The handler: the first generator call, the dispatch, and the
      follow-up call when there are tool outputs. The context message of
      the prompt is modelled separately by `DialogueContext`; the prompt
      is not an input here, since the responses `gen` stand for whatever
      the generator answers to it. */
  method AgentRequest(npcName: Option<string>, gen: seq<Response>, rand: nat -> string) returns (reply: AgentReply)
    ensures reply == AgentSpec(npcName, gen, rand)
  {
    if |gen| == 0 {
      return AgentFailed;
    }
    var response := gen[0];
    var calls := ExtractToolCalls(response);
    var round := AgentDispatch(calls, rand, 0);
    if round == None {
      return AgentFailed;
    }
    var followUp: Option<seq<Output>> := None;
    if |round.value.outputs| > 0 {
      if |gen| < 2 {
        return AgentFailed;
      }
      followUp := Some(round.value.outputs);
      response := gen[1];
    }
    var text := ReplyText(npcName, response.outputText);
    reply := AgentOk(text, round.value.actions, followUp);
  }

  /** The dispatch outcome a successful reply was built from. */
  lemma Dispatched(npcName: Option<string>, gen: seq<Response>, rand: nat -> string) returns (o: Round)
    requires AgentSpec(npcName, gen, rand).AgentOk?
    ensures var calls := ToolCalls(TopBlocks(gen[0]));
            && AgentPrefix(calls, rand, 0, |calls|) == Some(o)
            && OutputIds(o.outputs) == IdsNamed(calls, AgentNames)
            && |o.actions| == |IdsNamed(calls, EchoNames)|
            && forall i :: 0 <= i < |o.actions| ==> !o.actions[i].CreateMap?
  {
    var calls := ToolCalls(TopBlocks(gen[0]));
    o := AgentPrefix(calls, rand, 0, |calls|).value;
    AgentOutputs(calls, rand, 0, |calls|);
    AgentActions(calls, rand, 0, |calls|);
    assert calls[..|calls|] == calls;
  }

  /** A dialogue turn never changes the map, and echoes one action per
      recognised call other than `create_map`; the generator is asked again
      exactly when some call was recognised, with one output per recognised
      call. */
  lemma AgentReplyFacts(npcName: Option<string>, gen: seq<Response>, rand: nat -> string)
    requires AgentSpec(npcName, gen, rand).AgentOk?
    ensures var r := AgentSpec(npcName, gen, rand);
            var calls := ToolCalls(TopBlocks(gen[0]));
            && (forall i :: 0 <= i < |r.actions| ==> !r.actions[i].CreateMap?)
            && |r.actions| == |IdsNamed(calls, EchoNames)|
            && (r.followUp.Some? <==> IdsNamed(calls, AgentNames) != [])
            && (r.followUp.Some? ==> OutputIds(r.followUp.value) == IdsNamed(calls, AgentNames) && |gen| >= 2)
  {
    var o := Dispatched(npcName, gen, rand);
  }

  /** The text is the last response's `output_text`, or the NPC's silent nod
      when that is empty. */
  lemma AgentReplyText(npcName: Option<string>, gen: seq<Response>, rand: nat -> string)
    requires AgentSpec(npcName, gen, rand).AgentOk?
    ensures var r := AgentSpec(npcName, gen, rand);
            var last := if r.followUp.Some? then gen[1].outputText else gen[0].outputText;
            && (last != "" ==> r.text == last)
            && (last == "" && npcName.Some? && npcName.value != "" ==> r.text == npcName.value + Nod)
            && (last == "" && (npcName == None || npcName == Some("")) ==> r.text == "NPC" + Nod)
  {
    var o := Dispatched(npcName, gen, rand);
  }
}
