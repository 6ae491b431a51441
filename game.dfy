/** The rules of src/scenes/GameScene.js: the chicken's hit area, its loot, picking loot
    up, the combat snapshot taken when a fight starts and what a fight's end does to
    the player. The drawing, tweens and panels of the scene are not modelled. */
module Game {
  import opened Common
  import opened Weapons
  import opened Npcs
  import opened Items
  import opened PlayerState
  import opened InventoryFacts
  import opened Combat
  import opened CombatProperties

  // ---------------------------------------------------------------------------
  // Hit test
  // ---------------------------------------------------------------------------

  /** A position in world coordinates. */
  datatype Point = Point(x: real, y: real)

  function Abs(r: real): real { if r < 0.0 then -r else r }

  /** `hitTestChicken(worldX, worldY)`: the chicken (absent once it has died) is hit
      over a 100 by 70 box centred on its position, edges included. */
  function HitTestChicken(chicken: Option<Point>, worldX: real, worldY: real): (hit: bool)
    ensures chicken.None? ==> !hit
    ensures chicken.Some? ==>
      (hit <==> Abs(worldX - chicken.value.x) <= 50.0 && Abs(worldY - chicken.value.y) <= 35.0)
  {
    match chicken
    case None => false
    case Some(c) =>
      var w, h := 100.0, 70.0;
      var left, top := c.x - w / 2.0, c.y - h / 2.0;
      worldX >= left && worldX <= left + w && worldY >= top && worldY <= top + h
  }

  // ---------------------------------------------------------------------------
  // Loot
  // ---------------------------------------------------------------------------

  /** One entry of a drop table roll. */
  datatype Drop = Drop(itemId: string, quantity: nat)

  /** `20 + Math.floor(Math.random() * 31)`. */
  function FeatherCount(r: Draw): (n: nat)
    ensures 20 <= n <= 50
  {
    var k := (r * 31.0).Floor;
    assert 0 <= k < 31 by {
      assert 0.0 <= r * 31.0 < 31.0;
    }
    20 + k
  }

  /** The loot `dropLoot` rolls for `npcId`: bones, raw chicken, 20-50 feathers and, when
      the second draw is below 0.5, an egg for a chicken; nothing for any other NPC. */
  function RollLoot(npcId: string, featherDraw: Draw, eggDraw: Draw): (loot: seq<Drop>)
    ensures npcId != "chicken" ==> loot == []
  {
    if npcId == "chicken" then
      [Drop("bones", 1), Drop("raw_chicken", 1), Drop("feathers", FeatherCount(featherDraw))]
      + (if eggDraw < 0.5 then [Drop("egg", 1)] else [])
    else []
  }

  /** What a chicken drops, entry by entry; every dropped item is a known item. */
  lemma ChickenLoot(featherDraw: Draw, eggDraw: Draw)
    ensures var loot := RollLoot("chicken", featherDraw, eggDraw);
      && |loot| == (if eggDraw < 0.5 then 4 else 3)
      && loot[0] == Drop("bones", 1)
      && loot[1] == Drop("raw_chicken", 1)
      && loot[2].itemId == "feathers" && 20 <= loot[2].quantity <= 50
      && (eggDraw < 0.5 <==> exists j :: 0 <= j < |loot| && loot[j].itemId == "egg")
      && (eggDraw < 0.5 ==> loot[3] == Drop("egg", 1))
      && forall j :: 0 <= j < |loot| ==> loot[j].itemId in ItemTable && loot[j].quantity > 0
  {
    ItemTableFacts();
    var loot := RollLoot("chicken", featherDraw, eggDraw);
    if eggDraw < 0.5 {
      assert loot[3].itemId == "egg";
    }
  }

  /** Every feather count from 20 to 50 is rolled by some draw. */
  lemma FeatherCountsReachable(n: int)
    requires 20 <= n <= 50
    ensures exists r: Draw :: FeatherCount(r) == n
  {
    var r: real := (n - 20) as real / 31.0;
    assert r * 31.0 == (n - 20) as real;
    assert (r * 31.0).Floor == n - 20;
    assert FeatherCount(r) == n;
  }

  /** A loot item lying on the ground; `container` identifies its display object. */
  datatype GroundItem = GroundItem(container: nat, itemId: string, quantity: nat)

  /** `groundLoot.findIndex(l => l.container === lootContainer)`. */
  function FindLoot(loot: seq<GroundItem>, container: nat): (r: Option<nat>)
    ensures r.Some? ==> r.value < |loot| && loot[r.value].container == container
    ensures r.Some? ==> forall j :: 0 <= j < r.value ==> loot[j].container != container
    ensures r.None? <==> forall j :: 0 <= j < |loot| ==> loot[j].container != container
  {
    if loot == [] then None
    else if loot[0].container == container then Some(0)
    else match FindLoot(loot[1..], container)
      case Some(i) => Some(i + 1)
      case None => None
  }

  /** The ground list after `splice(index, 1)` of the first entry for `container`. */
  function RemoveLoot(loot: seq<GroundItem>, container: nat): seq<GroundItem> {
    match FindLoot(loot, container)
    case Some(i) => loot[..i] + loot[i + 1..]
    case None => loot
  }

  /** Display objects are never shared between ground items. */
  ghost predicate DistinctContainers(loot: seq<GroundItem>) {
    forall i, j :: 0 <= i < j < |loot| ==> loot[i].container != loot[j].container
  }

  /** The entries left after removing index `i`, position by position. */
  lemma RemoveAt(loot: seq<GroundItem>, i: nat)
    requires i < |loot|
    ensures var r := loot[..i] + loot[i + 1..];
      && |r| == |loot| - 1
      && (forall j :: 0 <= j < i ==> r[j] == loot[j])
      && (forall j :: i <= j < |r| ==> r[j] == loot[j + 1])
  {
  }

  /** On a list with distinct containers, removing `container` keeps exactly the other
      entries, and shortens the list by one when the container was there. */
  lemma RemoveLootDistinct(loot: seq<GroundItem>, container: nat)
    requires DistinctContainers(loot)
    ensures var r := RemoveLoot(loot, container);
      && (forall e :: e in r <==> e in loot && e.container != container)
      && |r| == |loot| - (if exists j :: 0 <= j < |loot| && loot[j].container == container then 1 else 0)
  {
    match FindLoot(loot, container)
    case None =>
    case Some(i) =>
      var r := loot[..i] + loot[i + 1..];
      RemoveAt(loot, i);
      forall e | e in r
        ensures e in loot && e.container != container
      {
        var j :| 0 <= j < |r| && r[j] == e;
        if j < i {
          assert loot[j] == e;
        } else {
          assert loot[j + 1] == e;
        }
      }
      forall e | e in loot && e.container != container
        ensures e in r
      {
        var j :| 0 <= j < |loot| && loot[j] == e;
        if j < i {
          assert r[j] == e;
        } else {
          assert r[j - 1] == e;
        }
      }
  }

  /** Removing an entry keeps the containers distinct. */
  lemma RemoveLootKeepsDistinct(loot: seq<GroundItem>, container: nat)
    requires DistinctContainers(loot)
    ensures DistinctContainers(RemoveLoot(loot, container))
  {
    match FindLoot(loot, container)
    case None =>
    case Some(i) =>
      var r := loot[..i] + loot[i + 1..];
      RemoveAt(loot, i);
      forall a, b | 0 <= a < b < |r|
        ensures r[a].container != r[b].container
      {
        var a', b' := if a < i then a else a + 1, if b < i then b else b + 1;
        assert r[a] == loot[a'] && r[b] == loot[b'];
      }
  }

  // ---------------------------------------------------------------------------
  // Combat snapshot
  // ---------------------------------------------------------------------------

  /** `player.equipment?.weapon || 'unarmed'`. */
  function WeaponIdOf(e: Equipment): (id: string)
    ensures id != ""
    ensures e.weapon.Some? && e.weapon.value != "" ==> id == e.weapon.value
    ensures e.weapon.None? || e.weapon.value == "" ==> id == "unarmed"
  {
    match e.weapon
    case Some(w) => if w != "" then w else "unarmed"
    case None => "unarmed"
  }

  /** The stats `startCombat` reads from the player. */
  predicate HasCombatStats(stats: map<string, Stat>) {
    && "attack" in stats && "strength" in stats && "defense" in stats
    && "hitpoints" in stats && stats["hitpoints"].current.Some?
  }

  /** `playerCombat`: levels from the stats, bonuses from the weapon, which is also
      passed along; it has no attack speed of its own (0 stands for `undefined`). */
  function PlayerFighter(stats: map<string, Stat>, e: Equipment): Fighter
    requires HasCombatStats(stats)
  {
    var w := GetWeapon(WeaponIdOf(e));
    Fighter(stats["attack"].level, stats["strength"].level, stats["defense"].level,
            w.attackBonus, w.strengthBonus, 0, Some(w), 0)
  }

  /** `npcCombat`: the NPC's stats, no weapon. */
  function NpcFighter(n: Npc): Fighter {
    Fighter(n.attack, n.strength, n.defense, n.attackBonus, n.strengthBonus, n.defenseBonus,
            None, n.attackSpeed)
  }

  /** The snapshot copies the weapon's bonuses and also carries the weapon, whose bonuses
      the attack adds again: the player's rolls count the weapon twice. */
  lemma SnapshotCountsWeaponTwice(stats: map<string, Stat>, e: Equipment)
    requires HasCombatStats(stats)
    ensures var f, w := PlayerFighter(stats, e), GetWeapon(WeaponIdOf(e));
      && WeaponOf(f) == w
      && EffectiveAttackRoll(f) == stats["attack"].level + 2 * w.attackBonus
      && EffectiveMaxHit(f) == MaxHit(stats["strength"].level, 2 * w.strengthBonus)
      && EffectiveDefenseRoll(f) == stats["defense"].level
  {
  }

  /** A new player fights unarmed with every roll at 1 and 10 hitpoints. */
  lemma NewPlayerSnapshot()
    ensures HasCombatStats(InitialStats())
    ensures var f := PlayerFighter(InitialStats(), NoEquipment);
      && WeaponOf(f) == Unarmed
      && EffectiveAttackRoll(f) == 1 && EffectiveDefenseRoll(f) == 1 && EffectiveMaxHit(f) == 1
      && InitialStats()["hitpoints"].current == Some(10) && InitialStats()["hitpoints"].level == 10
  {
    InitialCombatStats();
    assert WeaponIdOf(NoEquipment) == "unarmed";
  }

  /** An NPC fights unarmed, with its table bonuses counted once. */
  lemma NpcSnapshotCountsOnce(n: Npc)
    ensures var f := NpcFighter(n);
      && WeaponOf(f) == Unarmed
      && EffectiveAttackRoll(f) == n.attack + n.attackBonus
      && EffectiveMaxHit(f) == MaxHit(n.strength, n.strengthBonus)
      && EffectiveDefenseRoll(f) == n.defense + n.defenseBonus
  {
  }

  /** The chicken has a truthy attack speed, so as the defender it strikes back in
      every call where its timer has elapsed and the player's blow was not lethal. */
  lemma ChickenStrikesBack(c: Config, s: Session, time: real, rng: seq<Draw>)
    requires c.defender == NpcFighter(NpcTable["chicken"]) && |rng| >= 2
    ensures DefenderDue(c, s, time, rng) <==>
      s.active && AttackerTurn(c, s, time, rng).stillActive && time >= s.defenderNext
  {
    ChickenFacts();
  }

  /** Hitpoints after a lost fight: half the hitpoints level, rounded down, at least 1. */
  function RespawnHitpoints(level: int): (hp: int)
    ensures hp >= 1
    ensures level >= 2 ==> 2 * hp <= level <= 2 * hp + 1
    ensures level < 4 ==> hp == 1
  {
    Max(1, level / 2)
  }

  // ---------------------------------------------------------------------------
  // The scene
  // ---------------------------------------------------------------------------

  /** The parts of `GameScene` these rules change. `nextContainer` stands for creating a
      fresh display container for each ground item. */
  class GameScene {
    const player: Player
    var groundLoot: seq<GroundItem>
    var nextContainer: nat
    var combatState: CombatState?
    var combatNpc: Option<string>

    /** Every ground item has its own container, each created before. */
    ghost predicate LootValid() reads this {
      && DistinctContainers(groundLoot)
      && forall j :: 0 <= j < |groundLoot| ==> groundLoot[j].container < nextContainer
    }

    constructor (player: Player)
      ensures this.player == player
      ensures groundLoot == [] && nextContainer == 0
      ensures combatState == null && combatNpc == None
      ensures LootValid()
    {
      this.player := player;
      groundLoot := [];
      nextContainer := 0;
      combatState := null;
      combatNpc := None;
    }

    /** `createGroundLoot(x, y, itemId, quantity)`: an unknown item is skipped; a known
        one gets a new container and joins the ground list. */
    method CreateGroundLoot(itemId: string, quantity: nat)
      requires LootValid()
      modifies this`groundLoot, this`nextContainer
      ensures LootValid()
      ensures itemId !in ItemTable ==> groundLoot == old(groundLoot) && nextContainer == old(nextContainer)
      ensures itemId in ItemTable ==>
        && groundLoot == old(groundLoot) + [GroundItem(old(nextContainer), itemId, quantity)]
        && nextContainer == old(nextContainer) + 1
    {
      if itemId !in ItemTable {
        return;
      }
      groundLoot := groundLoot + [GroundItem(nextContainer, itemId, quantity)];
      nextContainer := nextContainer + 1;
    }

    /** `dropLoot(npcId, x, y)` with its two random draws: every rolled item is placed
        on the ground, in order, each in a container of its own. */
    method DropLoot(npcId: string, featherDraw: Draw, eggDraw: Draw)
      requires LootValid()
      modifies this`groundLoot, this`nextContainer
      ensures LootValid()
      ensures var loot := RollLoot(npcId, featherDraw, eggDraw);
        && |groundLoot| == |old(groundLoot)| + |loot|
        && groundLoot[..|old(groundLoot)|] == old(groundLoot)
        && nextContainer == old(nextContainer) + |loot|
        && forall j :: 0 <= j < |loot| ==>
             groundLoot[|old(groundLoot)| + j] == GroundItem(old(nextContainer) + j, loot[j].itemId, loot[j].quantity)
    {
      var loot := RollLoot(npcId, featherDraw, eggDraw);
      if npcId == "chicken" {
        ChickenLoot(featherDraw, eggDraw);
      }
      var i := 0;
      while i < |loot|
        invariant 0 <= i <= |loot|
        invariant LootValid()
        invariant |groundLoot| == |old(groundLoot)| + i
        invariant groundLoot[..|old(groundLoot)|] == old(groundLoot)
        invariant nextContainer == old(nextContainer) + i
        invariant forall j :: 0 <= j < i ==>
          groundLoot[|old(groundLoot)| + j] == GroundItem(old(nextContainer) + j, loot[j].itemId, loot[j].quantity)
      {
        CreateGroundLoot(loot[i].itemId, loot[i].quantity);
        i := i + 1;
      }
    }

    /** `pickupLoot(lootContainer, itemId, quantity)`: the item goes into the inventory
        as `AddItem` says, and the first ground entry for the container is
        removed whether or not the item found room. */
    method PickupLoot(lootContainer: nat, itemId: string, quantity: nat)
      modifies player`inventory, this`groundLoot
      ensures player.inventory == AddItem(old(player.inventory), itemId, quantity)
      ensures groundLoot == RemoveLoot(old(groundLoot), lootContainer)
      ensures old(LootValid()) ==> LootValid()
    {
      AddToInventory(itemId, quantity);
      RemoveFromGround(lootContainer);
    }

    /** The inventory half of `pickupLoot`: the stacking loop, then a new slot. */
    method AddToInventory(itemId: string, quantity: nat)
      modifies player`inventory
      ensures player.inventory == AddItem(old(player.inventory), itemId, quantity)
    {
      var added := false;
      if IsStackable(itemId) {
        var i := 0;
        while i < |player.inventory|
          invariant 0 <= i <= |player.inventory|
          invariant player.inventory == old(player.inventory)
          invariant forall j :: 0 <= j < i ==> player.inventory[j].itemId != itemId
          decreases |player.inventory| - i
        {
          if player.inventory[i].itemId == itemId {
            assert FindSlot(player.inventory, itemId) == Some(i);
            player.inventory := player.inventory[i := Slot(itemId, Effective(player.inventory[i].quantity) + quantity)];
            added := true;
            break;
          }
          i := i + 1;
        }
      }
      if !added && |player.inventory| < InventoryCap {
        player.inventory := player.inventory + [Slot(itemId, quantity)];
      }
    }

    /** The ground half of `pickupLoot`: `findIndex` then `splice(index, 1)`. */
    method RemoveFromGround(lootContainer: nat)
      modifies this`groundLoot
      ensures groundLoot == RemoveLoot(old(groundLoot), lootContainer)
      ensures old(LootValid()) ==> LootValid()
    {
      var index := FindLoot(groundLoot, lootContainer);
      if index.Some? {
        groundLoot := groundLoot[..index.value] + groundLoot[index.value + 1..];
      }
      if old(LootValid()) {
        RemoveLootDistinct(old(groundLoot), lootContainer);
        RemoveLootKeepsDistinct(old(groundLoot), lootContainer);
        forall j | 0 <= j < |groundLoot|
          ensures groundLoot[j].container < nextContainer
        {
          assert groundLoot[j] in old(groundLoot);
        }
      }
    }

    /** `startCombat(npcId)` at scene time `now`: any running fight is stopped; for a
        known NPC a new fight starts between fresh snapshots of the player and the NPC,
        the NPC striking first after a full attack interval. */
    method StartCombat(npcId: string, now: real)
      requires HasCombatStats(player.stats)
      // Of the old fight only `active` may change.
      modifies this`combatState, this`combatNpc, (if combatState == null then {} else {combatState})`active
      ensures old(combatState) != null ==>
        && !old(combatState).active
        && old(combatState).events == old(combatState.events)
        && old(combatState).attackerNextAttack == old(combatState.attackerNextAttack)
        && old(combatState).defenderNextAttack == old(combatState.defenderNextAttack)
      ensures GetNpc(npcId).None? ==> combatState == old(combatState) && combatNpc == old(combatNpc)
      ensures GetNpc(npcId).Some? ==>
        var n, hp := GetNpc(npcId).value, player.stats["hitpoints"];
        && combatState != null && fresh(combatState)
        && fresh(combatState.attacker) && fresh(combatState.defender)
        && combatState.Valid()
        && combatState.attacker.fighter == PlayerFighter(player.stats, player.equipment)
        && combatState.attacker.hitpoints == hp.current.value
        && combatState.attacker.maxHitpoints == hp.level
        && combatState.defender.fighter == NpcFighter(n)
        && combatState.defender.hitpoints == n.hitpoints
        && combatState.defender.maxHitpoints == n.hitpoints
        && combatState.weapon == GetWeapon(WeaponIdOf(player.equipment))
        && combatState.attackerNextAttack == 0.0
        && combatState.defenderNextAttack == now + (if n.attackSpeed != 0 then n.attackSpeed else 3000) as real
        && combatState.active && combatState.events == []
        && combatNpc == Some(npcId)
    {
      if combatState != null {
        combatState.Stop();
      }
      var npcData := GetNpc(npcId);
      if npcData.None? {
        return;
      }
      var n := npcData.value;
      var weaponId := WeaponIdOf(player.equipment);
      var hp := player.stats["hitpoints"];
      var playerActor := new Actor(PlayerFighter(player.stats, player.equipment), hp.current.value, hp.level);
      var npcActor := new Actor(NpcFighter(n), n.hitpoints, n.hitpoints);
      combatNpc := Some(npcId);
      var cs := new CombatState(playerActor, npcActor, weaponId);
      cs.defenderNextAttack := now + (if n.attackSpeed != 0 then n.attackSpeed else 3000) as real;
      combatState := cs;
    }

    /** `onCombatEnd(winner, loser)`: a player win is worth 5 experience; a loss sets the
        player's hitpoints to `RespawnHitpoints` of the hitpoints level; either way the
        fight is forgotten. */
    method OnCombatEnd(winner: Actor)
      requires combatState != null
      requires winner != combatState.attacker ==> "hitpoints" in player.stats
      modifies this`combatState, this`combatNpc, player`experience, player`stats
      ensures combatState == null && combatNpc == None
      ensures winner == old(combatState.attacker) ==>
        player.experience == old(player.experience) + 5 && player.stats == old(player.stats)
      ensures winner != old(combatState.attacker) ==>
        var hp := old(player.stats)["hitpoints"];
        && player.experience == old(player.experience)
        && player.stats == old(player.stats)["hitpoints" := hp.(current := Some(RespawnHitpoints(hp.level)))]
    {
      if winner == combatState.attacker {
        player.experience := player.experience + 5;
      } else {
        var hp := player.stats["hitpoints"];
        player.stats := player.stats["hitpoints" := hp.(current := Some(RespawnHitpoints(hp.level)))];
      }
      combatState := null;
      combatNpc := None;
    }
  }
}
