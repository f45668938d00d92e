/** What both server endpoints share: the shape of a generator response,
    `extractToolCalls`, the typed view of a call's JSON arguments, and the
    normalisers that turn arguments into world entities and action
    payloads. */
module ServerCalls {
  import opened Js
  import opened Wire

  /** The `legend` object of a map: tile character to tile name. */
  type Legend = map<string, string>

  datatype StatsArg = StatsArg(hp: Option<int>, atk: Option<int>)

  datatype ChangeArg = ChangeArg(x: Option<int>, y: Option<int>, tile: Option<int>)

  datatype ReplyArg = ReplyArg(id: Option<string>, text: Option<string>)

  /** The parsed arguments of a call, one optional field per property any
      tool reads. In `rows`, `None` stands for an element that is not a
      string. */
  datatype Args = Args(
    x: Option<int>, y: Option<int>,
    name: Option<string>, role: Option<string>, persona: Option<string>,
    kind: Option<string>, note: Option<string>,
    stats: Option<StatsArg>,
    w: Option<int>, h: Option<int>, rows: Option<seq<Option<string>>>, legend: Option<Legend>,
    changes: Option<seq<ChangeArg>>,
    options: Option<seq<ReplyArg>>)

  const NoArgs: Args := Args(None, None, None, None, None, None, None, None, None, None, None, None, None, None)

  /** `call.arguments`: a JSON string (whose parse may fail), an object, or
      absent. */
  datatype Arguments =
    | Encoded(parsed: Option<Args>)
    | Decoded(args: Args)
    | Missing

  /** `typeof call.arguments === 'string' ? JSON.parse(call.arguments) :
      (call.arguments ?? {})`; `None` is a failed parse, which throws. */
  function ArgsOf(a: Arguments): (r: Option<Args>)
    ensures r == None <==> a == Encoded(None)
    ensures a == Missing ==> r == Some(NoArgs)
  {
    match a
    case Encoded(p) => p
    case Decoded(args) => Some(args)
    case Missing => Some(NoArgs)
  }

  /** An entry of a response's output. `content` is `None` when the block's
      `content` is not an array. */
  datatype Block = Block(kind: string, id: string, name: string, arguments: Arguments,
                         content: Option<seq<Block>>)

  /** A property that, when present, may or may not be an array. */
  datatype BlockList = NotAnArray | Blocks(items: seq<Block>)

  /** A generator response: `output_text` ("" when absent) and the three
      properties `extractToolCalls` looks at. */
  datatype Response = Response(outputText: string, output: Option<BlockList>,
                               outputArray: Option<BlockList>, content: Option<BlockList>)

  const ToolCall: string := "tool_call"

  /** `response.output ?? response.output_array ?? response.content ?? []`,
      with anything that is not an array read as empty. */
  function TopBlocks(r: Response): (bs: seq<Block>)
    ensures r.output.Some? ==> bs == (if r.output.value.Blocks? then r.output.value.items else [])
    ensures r.output == None && r.outputArray.Some? ==>
              bs == (if r.outputArray.value.Blocks? then r.outputArray.value.items else [])
    ensures r.output == None && r.outputArray == None && r.content.Some? ==>
              bs == (if r.content.value.Blocks? then r.content.value.items else [])
    ensures r.output == None && r.outputArray == None && r.content == None ==> bs == []
  {
    var chosen :=
      if r.output.Some? then r.output.value
      else if r.outputArray.Some? then r.outputArray.value
      else if r.content.Some? then r.content.value
      else Blocks([]);
    if chosen.Blocks? then chosen.items else []
  }

  /** The tool calls in a block's own `content` array, in order. */
  function NestedCalls(cs: seq<Block>): (r: seq<Block>)
    ensures |r| <= |cs|
    ensures forall i :: 0 <= i < |r| ==> r[i].kind == ToolCall
    ensures |cs| == 1 ==> r == (if cs[0].kind == ToolCall then cs else [])
  {
    if cs == [] then []
    else NestedCalls(cs[..|cs| - 1]) + (if cs[|cs| - 1].kind == ToolCall then [cs[|cs| - 1]] else [])
  }

  /** The nested calls of two runs of blocks come out one run after the
      other, each block's call at most once and in document order. */
  lemma {:induction false} NestedCallsAppend(a: seq<Block>, b: seq<Block>)
    ensures NestedCalls(a + b) == NestedCalls(a) + NestedCalls(b)
    decreases |b|
  {
    if b == [] {
      assert a + b == a;
    } else {
      var b' := b[..|b| - 1];
      assert (a + b)[..|a + b| - 1] == a + b';
      assert (a + b)[|a + b| - 1] == b[|b| - 1];
      NestedCallsAppend(a, b');
    }
  }

  lemma {:induction false} NestedCallsMembers(cs: seq<Block>, c: Block)
    ensures c in NestedCalls(cs) <==> c in cs && c.kind == ToolCall
    decreases |cs|
  {
    if cs != [] {
      assert cs == cs[..|cs| - 1] + [cs[|cs| - 1]];
      NestedCallsMembers(cs[..|cs| - 1], c);
    }
  }

  /** What one top-level block contributes: itself when it is a tool call,
      then the tool calls of its `content`. */
  function BlockCalls(b: Block): seq<Block>
  {
    (if b.kind == ToolCall then [b] else []) + (if b.content.Some? then NestedCalls(b.content.value) else [])
  }

  /** The tool calls of a list of blocks, block by block in document order. */
  function ToolCalls(bs: seq<Block>): (r: seq<Block>)
    ensures forall i :: 0 <= i < |r| ==> r[i].kind == ToolCall
  {
    if bs == [] then [] else ToolCalls(bs[..|bs| - 1]) + BlockCalls(bs[|bs| - 1])
  }

  /** Tool calls of two consecutive runs of blocks come out one run after
      the other: the order of the document is kept. */
  lemma {:induction false} ToolCallsAppend(a: seq<Block>, b: seq<Block>)
    ensures ToolCalls(a + b) == ToolCalls(a) + ToolCalls(b)
    decreases |b|
  {
    if b == [] {
      assert a + b == a;
    } else {
      var b' := b[..|b| - 1];
      assert (a + b)[..|a + b| - 1] == a + b';
      assert (a + b)[|a + b| - 1] == b[|b| - 1];
      ToolCallsAppend(a, b');
    }
  }

  /** A call is extracted exactly when it is a top-level tool call or a tool
      call inside the `content` array of a top-level block. */
  lemma {:induction false} ToolCallsMembers(bs: seq<Block>, c: Block)
    ensures c in ToolCalls(bs) <==>
              (c in bs && c.kind == ToolCall) ||
              (exists b :: b in bs && b.content.Some? && c in b.content.value && c.kind == ToolCall)
    decreases |bs|
  {
    if bs != [] {
      var init, b := bs[..|bs| - 1], bs[|bs| - 1];
      assert bs == init + [b];
      ToolCallsMembers(init, c);
      if b.content.Some? {
        NestedCallsMembers(b.content.value, c);
      }
      if c in ToolCalls(bs) && !(c in ToolCalls(init)) {
        assert c in BlockCalls(b);
      }
      if exists b0 :: b0 in bs && b0.content.Some? && c in b0.content.value && c.kind == ToolCall {
        var b0 :| b0 in bs && b0.content.Some? && c in b0.content.value && c.kind == ToolCall;
        if b0 != b {
          assert b0 in init;
        }
      }
    }
  }

  /** The body of the outer loop of `extractToolCalls`: the block itself
      when it is a tool call, then the inner loop over its `content`. */
  method CollectBlockCalls(b: Block) returns (out: seq<Block>)
    ensures out == BlockCalls(b)
  {
    out := if b.kind == ToolCall then [b] else [];
    if b.content.Some? {
      var cs := b.content.value;
      var nested: seq<Block> := [];
      var j := 0;
      while j < |cs|
        invariant 0 <= j <= |cs|
        invariant nested == NestedCalls(cs[..j])
      {
        assert cs[..j + 1][..j] == cs[..j] && cs[..j + 1][j] == cs[j];
        if cs[j].kind == ToolCall {
          nested := nested + [cs[j]];
        }
        j := j + 1;
      }
      assert cs[..|cs|] == cs;
      out := out + nested;
    }
  }

  /** `extractToolCalls(response)`: the calls in document order. */
  method ExtractToolCalls(r: Response) returns (out: seq<Block>)
    ensures out == ToolCalls(TopBlocks(r))
  {
    var arr := TopBlocks(r);
    out := [];
    var i := 0;
    while i < |arr|
      invariant 0 <= i <= |arr|
      invariant out == ToolCalls(arr[..i])
    {
      var bc := CollectBlockCalls(arr[i]);
      assert arr[..i + 1][..i] == arr[..i];
      out := out + bc;
      i := i + 1;
    }
    assert arr[..|arr|] == arr;
  }

  // ----- what a call returns -----

  /** The `result` object of a recognised call, before `JSON.stringify`. */
  datatype CallResult =
    | MapAccepted(w: Option<int>, h: int)
    | MapInvalid
    | MapDisabled
    | NpcSpawned(npc: Npc)
    | EnemySpawned(enemy: Enemy)
    | ItemPlaced(item: Item)
    | WaypointSet(waypoint: Waypoint)
    | QuestsGiven(quests: seq<QuestOffer>)
    | TilesChanged(applied: nat, note: string)
    | RepliesOffered(options: seq<Reply>)

  /** `{ tool_call_id: call.id, output: JSON.stringify(result) }` */
  datatype Output = Output(callId: string, result: CallResult)

  // ----- normalisers -----

  /** `{ id: 'npc-' + suffix, x: args.x | 0, y: args.y | 0,
      name: String(args.name || 'NPC'), role: args.role || '',
      persona: args.persona || '' }` */
  function NpcFrom(args: Args, suffix: string): (n: Npc)
    ensures n.id == "npc-" + suffix
    ensures n.x == OrZero(args.x) && n.y == OrZero(args.y)
    ensures n.name != ""
    ensures args.name.Some? && args.name.value != "" ==> n.name == args.name.value
    ensures args.name == None || args.name == Some("") ==> n.name == "NPC"
    ensures n.role == (if args.role.Some? then args.role.value else "")
    ensures n.persona == (if args.persona.Some? then args.persona.value else "")
  {
    Npc("npc-" + suffix, OrZero(args.x), OrZero(args.y),
        StringOr(args.name, "NPC"), StringOr(args.role, ""), StringOr(args.persona, ""))
  }

  /** `stats: { hp: args?.stats?.hp ?? 5, atk: args?.stats?.atk ?? 1 }`:
      only an absent value takes the default, so 0 is kept. */
  function StatsFrom(s: Option<StatsArg>): (r: Stats)
    ensures s.Some? && s.value.hp.Some? ==> r.hp == s.value.hp.value
    ensures s.Some? && s.value.atk.Some? ==> r.atk == s.value.atk.value
    ensures s == None ==> r == Stats(5, 1)
    ensures s.Some? && s.value.hp == None ==> r.hp == 5
    ensures s.Some? && s.value.atk == None ==> r.atk == 1
  {
    var hp := if s.Some? && s.value.hp.Some? then s.value.hp.value else 5;
    var atk := if s.Some? && s.value.atk.Some? then s.value.atk.value else 1;
    Stats(hp, atk)
  }

  function EnemyFrom(args: Args, suffix: string): (e: Enemy)
    ensures e.id == "en-" + suffix
    ensures e.x == OrZero(args.x) && e.y == OrZero(args.y)
    ensures e.kind != ""
    ensures args.kind == None || args.kind == Some("") ==> e.kind == "rat"
    ensures args.kind.Some? && args.kind.value != "" ==> e.kind == args.kind.value
    ensures e.stats == StatsFrom(args.stats)
  {
    Enemy("en-" + suffix, OrZero(args.x), OrZero(args.y), StringOr(args.kind, "rat"), StatsFrom(args.stats))
  }

  function ItemFrom(args: Args, suffix: string): (it: Item)
    ensures it.id == "it-" + suffix
    ensures it.x == OrZero(args.x) && it.y == OrZero(args.y)
    ensures it.kind != ""
    ensures args.kind == None || args.kind == Some("") ==> it.kind == "gold"
    ensures args.kind.Some? && args.kind.value != "" ==> it.kind == args.kind.value
  {
    Item("it-" + suffix, OrZero(args.x), OrZero(args.y), StringOr(args.kind, "gold"))
  }

  /** `{ x: args.x | 0, y: args.y | 0, note: String(args.note || '') }` */
  function WaypointFrom(args: Args): (wp: Waypoint)
    ensures wp.x == OrZero(args.x) && wp.y == OrZero(args.y)
    ensures args.note == None ==> wp.note == ""
    ensures args.note.Some? ==> wp.note == args.note.value
  {
    Waypoint(OrZero(args.x), OrZero(args.y), StringOr(args.note, ""))
  }

  /** `Array.isArray(args.changes) ? args.changes.map(c => ({ x: c.x|0,
      y: c.y|0, tile: c.tile|0 })) : []` */
  function ChangesFrom(args: Args): (cs: seq<TileChange>)
    ensures args.changes == None ==> cs == []
    ensures args.changes.Some? ==> |cs| == |args.changes.value|
    ensures args.changes.Some? ==> forall i :: 0 <= i < |cs| ==>
              var c := args.changes.value[i];
              cs[i] == TileChange(OrZero(c.x), OrZero(c.y), OrZero(c.tile))
  {
    if args.changes.Some? then
      var src := args.changes.value;
      seq(|src|, i requires 0 <= i < |src| => TileChange(OrZero(src[i].x), OrZero(src[i].y), OrZero(src[i].tile)))
    else []
  }

  /** The i-th option's id when it has none: `opt${i+1}`. */
  function OptionId(i: nat): string
  {
    "opt" + Decimal(i + 1)
  }

  /** Synthesised ids of different positions differ. */
  lemma OptionIdInjective(i: nat, j: nat)
    requires OptionId(i) == OptionId(j)
    ensures i == j
  {
    assert Decimal(i + 1) == OptionId(i)[3..] == OptionId(j)[3..] == Decimal(j + 1);
    DecimalInjective(i + 1, j + 1);
  }

  function ReplyFrom(o: ReplyArg, i: nat): Reply
  {
    Reply(StringOr(o.id, OptionId(i)), StringOr(o.text, "..."))
  }

  /** `(args.options || []).map((o, i) => ({ id: String(o.id || `opt${i+1}`),
      text: String(o.text || '...') }))`: one reply per option, in order. */
  function RepliesFrom(args: Args): (rs: seq<Reply>)
    ensures args.options == None ==> rs == []
    ensures args.options.Some? ==> |rs| == |args.options.value|
    ensures args.options.Some? ==> forall i :: 0 <= i < |rs| ==>
              var o := args.options.value[i];
              (o.id.Some? && o.id.value != "" ==> rs[i].id == o.id.value) &&
              (o.id == None || o.id == Some("") ==> rs[i].id == OptionId(i)) &&
              (o.text.Some? && o.text.value != "" ==> rs[i].text == o.text.value) &&
              (o.text == None || o.text == Some("") ==> rs[i].text == "...")
  {
    if args.options.Some? then
      var src := args.options.value;
      seq(|src|, i requires 0 <= i < |src| => ReplyFrom(src[i], i))
    else []
  }

  /** When no option brings its own non-empty id, the replies' ids are
      pairwise distinct. */
  lemma RepliesDistinctIds(args: Args)
    requires args.options.Some? && forall i :: 0 <= i < |args.options.value| ==>
               args.options.value[i].id == None || args.options.value[i].id == Some("")
    ensures var rs := RepliesFrom(args);
            forall i, j :: 0 <= i < j < |rs| ==> rs[i].id != rs[j].id
  {
    var rs := RepliesFrom(args);
    forall i, j | 0 <= i < j < |rs| ensures rs[i].id != rs[j].id {
      if rs[i].id == rs[j].id {
        OptionIdInjective(i, j);
      }
    }
  }

  /** The `create_map` test: `rows` is an array of exactly `h` entries, each a
      string of length `w`. */
  predicate ValidMapArgs(args: Args)
  {
    && args.rows.Some?
    && args.h == Some(|args.rows.value|)
    && forall i :: 0 <= i < |args.rows.value| ==>
         args.rows.value[i].Some? && args.w == Some(|args.rows.value[i].value|)
  }

  /** The rows of a map that passed `ValidMapArgs`, as strings. */
  function RowStrings(rows: seq<Option<string>>): (r: seq<string>)
    requires forall i :: 0 <= i < |rows| ==> rows[i].Some?
    ensures |r| == |rows| && forall i :: 0 <= i < |r| ==> Some(r[i]) == rows[i]
  {
    seq(|rows|, i requires 0 <= i < |rows| => rows[i].value)
  }

  /** The fixed quest list `give_quests` hands out in `/api/newgame`. */
  const StartQuests: seq<QuestOffer> :=
    [QuestOffer(Some("start-1"), Some("Осмотреть окрестности"), Some("Пройдись по поляне и поговори с торговцем."))]

  /** The fixed quest list `give_quests` hands out in `/api/agent`. */
  const AgentQuests: seq<QuestOffer> :=
    [QuestOffer(Some("quest-rats"), Some("Крысиные дела"), Some("Помоги трактирщику в погребе.")),
     QuestOffer(Some("quest-ring"), Some("Потерянное кольцо"), Some("Найди кольцо на восточной тропе."))]

  // ----- tool outputs -----

  function OptionSeq<T>(o: Option<T>): seq<T>
  {
    if o.Some? then [o.value] else []
  }

  /** The ids of the calls, in order, whose name is in `names`. */
  function IdsNamed(calls: seq<Block>, names: set<string>): seq<string>
  {
    if calls == [] then []
    else IdsNamed(calls[..|calls| - 1], names) +
         (if calls[|calls| - 1].name in names then [calls[|calls| - 1].id] else [])
  }

  function OutputIds(outs: seq<Output>): (ids: seq<string>)
    ensures |ids| == |outs| && forall i :: 0 <= i < |outs| ==> ids[i] == outs[i].callId
  {
    if outs == [] then [] else OutputIds(outs[..|outs| - 1]) + [outs[|outs| - 1].callId]
  }

  lemma OutputIdsAppend(a: seq<Output>, b: seq<Output>)
    ensures OutputIds(a + b) == OutputIds(a) + OutputIds(b)
  {
    var l, r := OutputIds(a + b), OutputIds(a) + OutputIds(b);
    assert |l| == |r|;
    forall i | 0 <= i < |l| ensures l[i] == r[i] {
      if i >= |a| {
        assert (a + b)[i] == b[i - |a|];
      }
    }
  }

  /** `IdsNamed` of a prefix one call longer. */
  lemma IdsNamedStep(calls: seq<Block>, n: nat, names: set<string>)
    requires 0 < n <= |calls|
    ensures IdsNamed(calls[..n], names) ==
              IdsNamed(calls[..n - 1], names) + (if calls[n - 1].name in names then [calls[n - 1].id] else [])
  {
    assert calls[..n][..n - 1] == calls[..n - 1];
  }
}
