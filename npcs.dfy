/** The NPC table of src/data/npcs.js and its lookup. */
module Npcs {
  import opened Common

  datatype Npc = Npc(
    id: string,
    name: string,
    hitpoints: int,
    attack: int,
    strength: int,
    defense: int,
    attackSpeed: int,
    attackBonus: int,
    strengthBonus: int,
    defenseBonus: int
  )

  const Chicken := Npc("chicken", "Chicken", 3, 1, 1, 1, 3000, 0, 0, 0)

  /** `NPCS`, keyed by NPC id. */
  const NpcTable: map<string, Npc> := map["chicken" := Chicken]

  /** `getNpc`: the entry for a known id, `null` (None) otherwise. */
  function GetNpc(id: string): (r: Option<Npc>)
    ensures r.Some? <==> id in NpcTable
    ensures r.Some? ==> r.value == NpcTable[id] && r.value.id == id
    ensures r.Some? ==> r.value.attackSpeed > 0
  {
    if id in NpcTable then Some(NpcTable[id]) else None
  }

  /** The chicken's stats as the table gives them. */
  lemma ChickenFacts()
    ensures NpcTable.Keys == {"chicken"}
    ensures NpcTable["chicken"].id == "chicken"
    ensures NpcTable["chicken"].hitpoints == 3
    ensures NpcTable["chicken"].attack == 1 && NpcTable["chicken"].strength == 1 && NpcTable["chicken"].defense == 1
    ensures NpcTable["chicken"].attackSpeed == 3000
    ensures NpcTable["chicken"].attackBonus == 0 && NpcTable["chicken"].strengthBonus == 0
    ensures NpcTable["chicken"].defenseBonus == 0
  {
  }
}
