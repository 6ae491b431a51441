/** The player record of src/state/player.js and the inventory slots every scene works on. */
module PlayerState {
  import opened Common

  /** `STAT_IDS`. */
  const StatIds: seq<string> := [
    "attack", "strength", "defense", "hitpoints", "prayer", "magic", "ranged",
    "cooking", "fishing", "mining", "smithing", "crafting", "hunting", "agility"
  ]

  /** A skill: level, experience and, for hitpoints and prayer only, a current pool. */
  datatype Stat = Stat(level: int, xp: int, current: Option<int>)

  /** `createStat(level, xp, current)`: `current` is present only when it is non-null. */
  function CreateStat(level: int, xp: int, current: Option<int>): Stat {
    Stat(level, xp, current)
  }

  /** The stat `createPlayer` gives skill `id`. */
  function InitialStat(id: string): Stat {
    if id == "hitpoints" then CreateStat(10, 0, Some(10))
    else if id == "prayer" then CreateStat(1, 0, Some(0))
    else CreateStat(1, 0, None)
  }

  /** The `for (const id of STAT_IDS)` loop of `createPlayer`, over a prefix of the ids. */
  function StatsFor(ids: seq<string>): map<string, Stat> {
    if ids == [] then map[]
    else StatsFor(ids[..|ids| - 1])[ids[|ids| - 1] := InitialStat(ids[|ids| - 1])]
  }

  function InitialStats(): map<string, Stat> {
    StatsFor(StatIds)
  }

  /** The loop creates one entry per id, each the id's initial stat. */
  lemma {:induction false} StatsForEntries(ids: seq<string>)
    ensures forall k :: k in StatsFor(ids) <==> k in ids
    ensures forall k :: k in StatsFor(ids) ==> StatsFor(ids)[k] == InitialStat(k)
  {
    if ids != [] {
      var init := ids[..|ids| - 1];
      StatsForEntries(init);
      assert ids == init + [ids[|ids| - 1]];
    }
  }

  /** `STAT_IDS` lists fourteen distinct skills. */
  lemma StatIdsDistinct()
    ensures |StatIds| == 14
    ensures forall i, j :: 0 <= i < j < |StatIds| ==> StatIds[i] != StatIds[j]
  {
  }

  /** `createPlayer`'s stats: one per `STAT_IDS` entry (fourteen); hitpoints 10/10,
      prayer level 1 with 0 points, every other skill level 1, 0 xp, no current pool. */
  lemma InitialStatsFacts()
    ensures forall k :: k in InitialStats() <==> k in StatIds
    ensures |InitialStats()| == 14
    ensures "hitpoints" in InitialStats() && "prayer" in InitialStats()
    ensures InitialStats()["hitpoints"] == Stat(10, 0, Some(10))
    ensures InitialStats()["prayer"] == Stat(1, 0, Some(0))
    ensures forall k :: k in InitialStats() && k != "hitpoints" && k != "prayer" ==>
              InitialStats()[k] == Stat(1, 0, None)
  {
    StatsForEntries(StatIds);
    InitialStatsCount();
    assert StatIds[3] == "hitpoints" && StatIds[4] == "prayer";
  }

  /** The four stats combat reads, on a new player. */
  lemma InitialCombatStats()
    ensures var st := InitialStats();
      && "attack" in st && "strength" in st && "defense" in st && "hitpoints" in st
      && st["attack"] == Stat(1, 0, None) && st["strength"] == Stat(1, 0, None)
      && st["defense"] == Stat(1, 0, None) && st["hitpoints"] == Stat(10, 0, Some(10))
  {
    InitialStatsFacts();
    assert "attack" in StatIds && "strength" in StatIds && "defense" in StatIds;
  }

  lemma InitialStatsCount()
    ensures |InitialStats()| == 14
  {
    StatsForEntries(StatIds);
    StatIdsDistinct();
    DistinctCard(StatIds);
    assert InitialStats().Keys == set x | x in StatIds;
  }

  /** A sequence of distinct elements has as many distinct values as positions. */
  lemma {:induction false} DistinctCard(s: seq<string>)
    requires forall i, j :: 0 <= i < j < |s| ==> s[i] != s[j]
    ensures |set x | x in s| == |s|
  {
    if s != [] {
      var init := s[..|s| - 1];
      DistinctCard(init);
      assert s == init + [s[|s| - 1]];
      assert (set x | x in s) == (set x | x in init) + {s[|s| - 1]};
      assert s[|s| - 1] !in init;
    }
  }

  /** The nine equipment slots; each holds an item id or `null`. */
  datatype Equipment = Equipment(
    weapon: Option<string>, offhand: Option<string>, head: Option<string>,
    body: Option<string>, legs: Option<string>, feet: Option<string>,
    hands: Option<string>, cape: Option<string>, ammo: Option<string>)

  const NoEquipment := Equipment(None, None, None, None, None, None, None, None, None)

  /** One inventory slot `{ itemId, quantity }`. A quantity of 0 stands for both a
      missing and a zero quantity: the game's code treats the two alike. */
  datatype Slot = Slot(itemId: string, quantity: nat)

  /** Every enforced inventory limit is 48 slots. */
  const InventoryCap := 48

  /** `slot.quantity || 1`. */
  function Effective(q: nat): (e: nat)
    ensures e >= 1 && (q > 0 ==> e == q)
  {
    if q == 0 then 1 else q
  }

  /** `inv.find(s => s.itemId === id)`, as an index. */
  function FindSlot(inv: seq<Slot>, id: string): (r: Option<nat>)
    ensures r.Some? ==> r.value < |inv| && inv[r.value].itemId == id
    ensures r.Some? ==> forall j :: 0 <= j < r.value ==> inv[j].itemId != id
    ensures r.None? <==> forall j :: 0 <= j < |inv| ==> inv[j].itemId != id
  {
    if inv == [] then None
    else if inv[0].itemId == id then Some(0)
    else match FindSlot(inv[1..], id)
      case None => None
      case Some(k) => Some(k + 1)
  }

  /** `inv.some(s => s.itemId === id)`. */
  predicate HasItem(inv: seq<Slot>, id: string) {
    exists j :: 0 <= j < |inv| && inv[j].itemId == id
  }

  /** The quantity (default 1) of the first slot holding `id`, or 0 if there is none. */
  function FirstQuantity(inv: seq<Slot>, id: string): nat {
    match FindSlot(inv, id)
    case Some(k) => Effective(inv[k].quantity)
    case None => 0
  }

  /** Total quantity of `id` over all slots. */
  function Total(inv: seq<Slot>, id: string): nat {
    if inv == [] then 0
    else Total(inv[..|inv| - 1], id) + (if inv[|inv| - 1].itemId == id then inv[|inv| - 1].quantity else 0)
  }

  /** Every slot holds a positive quantity: what every inventory operation keeps. */
  predicate AllPositive(inv: seq<Slot>) {
    forall j :: 0 <= j < |inv| ==> inv[j].quantity > 0
  }

  /** `inv.filter(s => (s.quantity || 0) > 0)`. */
  function KeepPositive(inv: seq<Slot>): (r: seq<Slot>)
    ensures AllPositive(r) && |r| <= |inv|
  {
    if inv == [] then []
    else KeepPositive(inv[..|inv| - 1]) + (if inv[|inv| - 1].quantity > 0 then [inv[|inv| - 1]] else [])
  }

  /** The player record: every field a scene updates in place. */
  class Player {
    var stats: map<string, Stat>
    var gold: int
    var inventory: seq<Slot>
    var equipment: Equipment
    var hunger: int
    var renown: int
    var experience: int

    /** `createPlayer()`. */
    constructor Create()
      ensures stats == InitialStats()
      ensures gold == 100 && inventory == [] && equipment == NoEquipment
      ensures hunger == 100 && renown == 0 && experience == 0
    {
      stats := InitialStats();
      gold := 100;
      inventory := [];
      equipment := NoEquipment;
      hunger := 100;
      renown := 0;
      experience := 0;
    }
  }
}
