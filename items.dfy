/** The item table and the smelting and anvil recipe tables of src/data/items.js. */
module Items {
  import opened Common

  datatype ItemKind = Food | Resource | Tool | WeaponKind | Armour

  datatype Item = Item(
    id: string,
    name: string,
    kind: ItemKind,
    stackable: bool,
    maxStack: Option<nat>,
    cookResult: Option<string>,
    cookLevel: Option<nat>,
    hungerRestore: Option<nat>
  )

  /** A stackable item without cooking data. */
  function Stack(id: string, name: string, kind: ItemKind): Item {
    Item(id, name, kind, true, Some(999), None, None, None)
  }

  /** A non-stackable item (no `maxStack`). */
  function Single(id: string, name: string, kind: ItemKind): Item {
    Item(id, name, kind, false, None, None, None, None)
  }

  /** `ITEMS`, keyed by item id. */
  const ItemTable: map<string, Item> := map[
    "raw_chicken" := Item("raw_chicken", "Raw chicken", Food, true, Some(999), Some("cooked_chicken"), Some(1), None),
    "cooked_chicken" := Item("cooked_chicken", "Cooked chicken", Food, true, Some(999), None, None, Some(10)),
    "raw_beef" := Item("raw_beef", "Raw beef", Food, true, Some(999), Some("cooked_beef"), Some(1), None),
    "cooked_beef" := Item("cooked_beef", "Cooked beef", Food, true, Some(999), None, None, Some(15)),
    "bones" := Stack("bones", "Bones", Resource),
    "feathers" := Stack("feathers", "Feathers", Resource),
    "egg" := Stack("egg", "Egg", Food),
    "bronze_pickaxe" := Single("bronze_pickaxe", "Bronze pickaxe", Tool),
    "copper_ore" := Stack("copper_ore", "Copper ore", Resource),
    "tin_ore" := Stack("tin_ore", "Tin ore", Resource),
    "bronze_bar" := Stack("bronze_bar", "Bronze bar", Resource),
    "bronze_dagger" := Single("bronze_dagger", "Bronze dagger", WeaponKind),
    "bronze_cap" := Single("bronze_cap", "Bronze cap", Armour),
    "bronze_shorts" := Single("bronze_shorts", "Bronze shorts", Armour),
    "bronze_round_shield" := Single("bronze_round_shield", "Bronze round shield", Armour)
  ]

  /** A recipe quantity; every ore amount in the tables is positive. */
  type Positive = n: int | n > 0 witness 1

  /** One ingredient of a smelting recipe; every amount in the table is positive. */
  datatype OreAmount = OreAmount(itemId: string, amount: Positive)

  datatype SmeltRecipe = SmeltRecipe(ores: seq<OreAmount>, barAmount: nat)

  /** `SMELT_RECIPES`, keyed by bar id. */
  const SmeltRecipes: map<string, SmeltRecipe> := map[
    "bronze_bar" := SmeltRecipe([OreAmount("copper_ore", 1), OreAmount("tin_ore", 1)], 1)
  ]

  datatype AnvilRecipe = AnvilRecipe(itemId: string, bars: int, smithingLevel: int)

  /** `ANVIL_RECIPES`, keyed by bar id. */
  const AnvilRecipes: map<string, seq<AnvilRecipe>> := map[
    "bronze_bar" := [
      AnvilRecipe("bronze_dagger", 1, 1),
      AnvilRecipe("bronze_cap", 1, 1),
      AnvilRecipe("bronze_shorts", 2, 1),
      AnvilRecipe("bronze_round_shield", 2, 1)
    ]
  ]

  /** `getItem`: the entry for a known id, `null` (None) otherwise. */
  function GetItem(id: string): (r: Option<Item>)
    ensures r.Some? <==> id in ItemTable
    ensures r.Some? ==> r.value == ItemTable[id] && r.value.id == id
    ensures r.Some? ==> r.value.maxStack == (if r.value.stackable then Some(999) else None)
  {
    if id in ItemTable then Some(ItemTable[id]) else None
  }

  /** `ITEMS[id] && ITEMS[id].stackable`. */
  predicate IsStackable(id: string) {
    id in ItemTable && ItemTable[id].stackable
  }

  /** Facts about the item table: keys match ids, and `maxStack` is 999 exactly on stackable items. */
  lemma ItemTableFacts()
    ensures forall k :: k in ItemTable ==> ItemTable[k].id == k
    ensures forall k :: k in ItemTable ==> ItemTable[k].maxStack == (if ItemTable[k].stackable then Some(999) else None)
  {
    forall k | k in ItemTable
      ensures ItemTable[k].id == k
      ensures ItemTable[k].maxStack == (if ItemTable[k].stackable then Some(999) else None)
    {
      assert k in ItemIds;
    }
  }

  /** The table holds exactly the fifteen ids listed in `ItemIds`. */
  lemma ItemTableKeys()
    ensures ItemTable.Keys == ItemIds
  {
  }

  /** The ids of `ITEMS`, in table order. */
  const ItemIds: set<string> := {
    "raw_chicken", "cooked_chicken", "raw_beef", "cooked_beef", "bones", "feathers", "egg",
    "bronze_pickaxe", "copper_ore", "tin_ore", "bronze_bar", "bronze_dagger", "bronze_cap",
    "bronze_shorts", "bronze_round_shield"
  }

  /** Facts about the recipe tables, and that every id they name is an item. */
  lemma RecipeTableFacts()
    ensures SmeltRecipes.Keys == {"bronze_bar"}
    ensures SmeltRecipes["bronze_bar"].ores == [OreAmount("copper_ore", 1), OreAmount("tin_ore", 1)]
    ensures SmeltRecipes["bronze_bar"].barAmount == 1
    ensures forall b :: b in SmeltRecipes ==> b in ItemTable
    ensures forall b, i :: b in SmeltRecipes && 0 <= i < |SmeltRecipes[b].ores| ==>
              SmeltRecipes[b].ores[i].itemId in ItemTable && SmeltRecipes[b].ores[i].amount > 0
    ensures AnvilRecipes.Keys == {"bronze_bar"}
    ensures |AnvilRecipes["bronze_bar"]| == 4
    ensures forall b, i :: b in AnvilRecipes && 0 <= i < |AnvilRecipes[b]| ==>
              AnvilRecipes[b][i].itemId in ItemTable &&
              1 <= AnvilRecipes[b][i].bars <= 2 && AnvilRecipes[b][i].smithingLevel == 1
  {
  }
}
