/** The weapon table of src/data/weapons.js and its fallback lookup. */
module Weapons {

  datatype Weapon = Weapon(
    id: string,
    name: string,
    attackSpeed: int,     // milliseconds between attacks
    attackBonus: int,
    strengthBonus: int,
    debugInstaKill: bool  // absent in the table means false
  )

  const Unarmed := Weapon("unarmed", "Unarmed", 2400, 0, 0, false)
  const Dagger := Weapon("dagger", "Dagger", 3000, 7, 4, false)
  const Longsword := Weapon("longsword", "Longsword", 3600, 18, 19, false)
  const DebugDagger := Weapon("debug_dagger", "[DEBUG] Insta-kill Dagger", 1200, 999, 999, true)

  /** `WEAPONS`, keyed by weapon id. */
  const WeaponTable: map<string, Weapon> := map[
    "unarmed" := Unarmed,
    "dagger" := Dagger,
    "longsword" := Longsword,
    "debug_dagger" := DebugDagger
  ]

  /** `getWeapon`: the table entry, or `unarmed` for an unknown id. */
  function GetWeapon(id: string): (w: Weapon)
    ensures id in WeaponTable ==> w == WeaponTable[id]
    ensures id !in WeaponTable ==> w == WeaponTable["unarmed"]
    ensures w.attackSpeed > 0
    ensures w.debugInstaKill <==> w.id == "debug_dagger"
  {
    if id in WeaponTable then WeaponTable[id] else Unarmed
  }

  /** Facts about the table itself: keys match ids, speeds are positive,
      only the debug dagger kills instantly, and the unarmed entry. */
  lemma WeaponTableFacts()
    ensures WeaponTable.Keys == {"unarmed", "dagger", "longsword", "debug_dagger"}
    ensures forall k :: k in WeaponTable ==> WeaponTable[k].id == k
    ensures forall k :: k in WeaponTable ==> WeaponTable[k].attackSpeed > 0
    ensures forall k :: k in WeaponTable ==> (WeaponTable[k].debugInstaKill <==> k == "debug_dagger")
    ensures WeaponTable["unarmed"].attackSpeed == 2400
    ensures WeaponTable["unarmed"].attackBonus == 0 && WeaponTable["unarmed"].strengthBonus == 0
  {
  }
}
