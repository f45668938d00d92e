/** The values the server hands to the client: world entities and the
    `{type, payload}` actions that describe what the generator did. */
module Wire {
  import opened Js

  datatype Npc = Npc(id: string, x: int, y: int, name: string, role: string, persona: string)

  datatype Stats = Stats(hp: int, atk: int)

  datatype Enemy = Enemy(id: string, x: int, y: int, kind: string, stats: Stats)

  datatype Item = Item(id: string, x: int, y: int, kind: string)

  datatype Waypoint = Waypoint(x: int, y: int, note: string)

  /** A quest as it travels in a `give_quests` payload; the client fills in
      whatever field is missing. */
  datatype QuestOffer = QuestOffer(id: Option<string>, title: Option<string>, desc: Option<string>)

  datatype TileChange = TileChange(x: int, y: int, tile: int)

  datatype Reply = Reply(id: string, text: string)

  /** One action, tagged by its `type`. `Unrecognised` stands for an action
      whose `type` is none of the eight the client knows. */
  datatype Action =
    | CreateMap(w: Option<int>, h: int, rows: seq<string>)
    | SpawnNpc(npc: Npc)
    | SpawnEnemy(enemy: Enemy)
    | PlaceItem(item: Item)
    | SetWaypoint(waypoint: Waypoint)
    | GiveQuests(quests: seq<QuestOffer>)
    | ModifyTiles(changes: seq<TileChange>, note: string)
    | DialogueOptions(options: seq<Reply>)
    | Unrecognised(kind: string)

  /** One entry of `history`: who spoke and what was said. */
  datatype Turn = Turn(speaker: string, text: string)
}
