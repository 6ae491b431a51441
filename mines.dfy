/** The mining rules of src/scenes/MinesScene.js: which ore a click selects, starting
    and stopping mining, and the ore awarded each time the mining timer fires. The timer
    is modelled as a pending tick, fired by `OreTick`; whether the scene is active is a
    parameter. */
module Mines {
  import opened Common
  import opened Items
  import opened PlayerState
  import opened InventoryFacts

  /** A closed rectangle in world coordinates. */
  datatype Zone = Zone(left: real, right: real, top: real, bottom: real)

  predicate InZone(z: Zone, gx: real, gy: real) {
    z.left <= gx <= z.right && z.top <= gy <= z.bottom
  }

  /** The copper rocks: x 0 to 390, y 180 to 430. */
  const CopperZone := Zone(0.0, 390.0, 180.0, 430.0)

  /** The tin rocks: x 410 to the scene width, y 170 to 430. */
  function TinZone(width: real): Zone {
    Zone(410.0, width, 170.0, 430.0)
  }

  /** The ore a right click at (gx, gy) offers to mine, copper checked first; `None`
      opens no menu. The zones do not overlap, so each ore is offered exactly over its
      own zone. */
  function ClassifyClick(width: real, gx: real, gy: real): (ore: Option<string>)
    ensures ore == Some("copper_ore") <==> InZone(CopperZone, gx, gy)
    ensures ore == Some("tin_ore") <==> InZone(TinZone(width), gx, gy)
    ensures ore.None? <==> !InZone(CopperZone, gx, gy) && !InZone(TinZone(width), gx, gy)
    ensures ore.Some? ==> ore.value in ItemTable && IsStackable(ore.value)
  {
    if InZone(CopperZone, gx, gy) then Some("copper_ore")
    else if InZone(TinZone(width), gx, gy) then Some("tin_ore")
    else None
  }

  /** The scene's mining state. `miningTimer` is the pending ore tick, holding the ore
      it was scheduled for (`None` when no timer is set). */
  class MinesScene {
    const player: Player
    var miningInProgress: bool
    var currentMiningOre: Option<string>
    var miningTimer: Option<string>

    /** Mining is in progress exactly while an ore is chosen. */
    ghost predicate Valid() reads this {
      miningInProgress <==> currentMiningOre.Some?
    }

    /** A pending timer is for the ore being mined: what starting and stopping keep, so
        the tick's changed-ore guard never fires for timers these methods set. */
    ghost predicate TimerMatches() reads this {
      miningTimer.Some? ==> currentMiningOre == miningTimer
    }

    constructor (player: Player)
      ensures this.player == player
      ensures !miningInProgress && currentMiningOre == None && miningTimer == None
      ensures Valid() && TimerMatches()
    {
      this.player := player;
      miningInProgress := false;
      currentMiningOre := None;
      miningTimer := None;
    }

    /** `stopMining()`: no timer, no ore, not mining. */
    method StopMining()
      modifies this`miningInProgress, this`currentMiningOre, this`miningTimer
      ensures !miningInProgress && currentMiningOre == None && miningTimer == None
      ensures Valid() && TimerMatches()
    {
      miningTimer := None;
      currentMiningOre := None;
      miningInProgress := false;
    }

    /** `scheduleNextOre(oreType)`: stops mining when the scene is inactive or the ore is
        no longer the one being mined, and otherwise sets the timer for that ore. */
    method ScheduleNextOre(oreType: string, sceneActive: bool)
      requires Valid()
      modifies this`miningInProgress, this`currentMiningOre, this`miningTimer
      ensures Valid() && TimerMatches()
      ensures !sceneActive || old(currentMiningOre) != Some(oreType) ==>
        !miningInProgress && currentMiningOre == None && miningTimer == None
      ensures sceneActive && old(currentMiningOre) == Some(oreType) ==>
        && miningTimer == Some(oreType)
        && currentMiningOre == old(currentMiningOre) && miningInProgress == old(miningInProgress)
    {
      if !sceneActive || currentMiningOre != Some(oreType) {
        StopMining();
        return;
      }
      miningTimer := Some(oreType);
    }

    /** `tryStartMining(oreType)`: without a bronze pickaxe in the inventory mining stops;
        with one, any pending timer is dropped and mining of `oreType` begins, its first
        tick scheduled while the scene is active. */
    method TryStartMining(oreType: string, sceneActive: bool)
      requires Valid()
      modifies this`miningInProgress, this`currentMiningOre, this`miningTimer
      ensures Valid() && TimerMatches()
      ensures !HasItem(player.inventory, "bronze_pickaxe") ==>
        !miningInProgress && currentMiningOre == None && miningTimer == None
      ensures HasItem(player.inventory, "bronze_pickaxe") && sceneActive ==>
        miningInProgress && currentMiningOre == Some(oreType) && miningTimer == Some(oreType)
      ensures HasItem(player.inventory, "bronze_pickaxe") && !sceneActive ==>
        !miningInProgress && currentMiningOre == None && miningTimer == None
    {
      var hasPickaxe := FindSlot(player.inventory, "bronze_pickaxe").Some?;
      if !hasPickaxe {
        StopMining();
        return;
      }
      miningTimer := None;
      currentMiningOre := Some(oreType);
      miningInProgress := true;
      ScheduleNextOre(oreType, sceneActive);
    }

    /** The body of the timer callback `scheduleNextOre` sets: the timer is consumed; an
        inactive scene or a changed ore stops mining and awards nothing; otherwise one
        ore is added as `AddItem` says and the next tick is scheduled. */
    method OreTick(sceneActive: bool)
      requires Valid() && miningTimer.Some?
      modifies this`miningInProgress, this`currentMiningOre, this`miningTimer, player`inventory
      ensures Valid() && TimerMatches()
      ensures var oreType := old(miningTimer).value;
        if sceneActive && old(currentMiningOre) == Some(oreType) then
          && player.inventory == AddItem(old(player.inventory), oreType, 1)
          && miningInProgress && currentMiningOre == Some(oreType) && miningTimer == Some(oreType)
        else
          && player.inventory == old(player.inventory)
          && !miningInProgress && currentMiningOre == None && miningTimer == None
    {
      var oreType := miningTimer.value;
      miningTimer := None;
      if !sceneActive {
        StopMining();
        return;
      }
      if currentMiningOre != Some(oreType) {
        StopMining();
        return;
      }
      if IsStackable(oreType) {
        var existing := FindSlot(player.inventory, oreType);
        if existing.Some? {
          var k := existing.value;
          player.inventory := player.inventory[k := Slot(oreType, Effective(player.inventory[k].quantity) + 1)];
        } else if |player.inventory| < InventoryCap {
          player.inventory := player.inventory + [Slot(oreType, 1)];
        }
      } else if |player.inventory| < InventoryCap {
        player.inventory := player.inventory + [Slot(oreType, 1)];
      }
      ScheduleNextOre(oreType, sceneActive);
    }
  }

  /** Both ores stack. */
  lemma OresStack()
    ensures IsStackable("copper_ore") && IsStackable("tin_ore")
  {
    assert ItemTable["copper_ore"].stackable && ItemTable["tin_ore"].stackable;
  }

  /** The ore's total grows by exactly one per successful tick unless the inventory is
      full and holds none of it yet; no other item changes. */
  lemma OreTickTotals(inv: seq<Slot>, ore: string, id: string)
    requires ore == "copper_ore" || ore == "tin_ore"
    requires PositiveFor(inv, ore)
    ensures Total(AddItem(inv, ore, 1), id) ==
      Total(inv, id) + (if id == ore && (HasItem(inv, ore) || |inv| < InventoryCap) then 1 else 0)
  {
    AddItemTotals(inv, ore, 1, id);
  }

  /** `n` successful ticks in a row: the award applied `n` times. */
  function MineTicks(inv: seq<Slot>, ore: string, n: nat): seq<Slot> {
    Ticks(inv, ore, n, IsStackable(ore))
  }

  /** `n` awards of an ore whose stackability is `stackable`. */
  function Ticks(inv: seq<Slot>, ore: string, n: nat, stackable: bool): seq<Slot> {
    if n == 0 then inv else AddItemAs(Ticks(inv, ore, n - 1, stackable), ore, 1, stackable)
  }

  /** Once the inventory holds some of a stackable ore, every further tick stacks onto
      it: `n` ticks add exactly `n`, keep the slot count and leave other items alone. */
  lemma MineTicksStack(inv: seq<Slot>, ore: string, n: nat, id: string)
    requires IsStackable(ore)
    requires PositiveFor(inv, ore) && HasItem(inv, ore)
    ensures var r := MineTicks(inv, ore, n);
      && PositiveFor(r, ore) && HasItem(r, ore)
      && |r| == |inv|
      && Total(r, id) == Total(inv, id) + (if id == ore then n else 0)
  {
    assert MineTicks(inv, ore, n) == Ticks(inv, ore, n, true);
    StackTicksHeld(inv, ore, n);
    if id == ore {
      StackTicksTotal(inv, ore, n);
    } else {
      TicksOther(inv, ore, n, true, id);
    }
  }

  /** The ore stays held and positive and no slot is added. */
  lemma {:induction false} StackTicksHeld(inv: seq<Slot>, ore: string, n: nat)
    requires PositiveFor(inv, ore) && HasItem(inv, ore)
    ensures var r := Ticks(inv, ore, n, true);
      PositiveFor(r, ore) && HasItem(r, ore) && |r| == |inv|
    decreases n
  {
    if n > 0 {
      StackTicksHeld(inv, ore, n - 1);
      StackOnto(Ticks(inv, ore, n - 1, true), ore, 1, ore);
    }
  }

  /** `n` ticks add exactly `n` of the ore. */
  lemma {:induction false} StackTicksTotal(inv: seq<Slot>, ore: string, n: nat)
    requires PositiveFor(inv, ore) && HasItem(inv, ore)
    ensures Total(Ticks(inv, ore, n, true), ore) == Total(inv, ore) + n
    decreases n
  {
    if n > 0 {
      var prev := Ticks(inv, ore, n - 1, true);
      StackTicksTotal(inv, ore, n - 1);
      StackTicksHeld(inv, ore, n - 1);
      StackOntoTotal(prev, ore, 1, ore);
    }
  }

  /** No tick changes another item's total. */
  lemma {:induction false} TicksOther(inv: seq<Slot>, ore: string, n: nat, stackable: bool, id: string)
    requires id != ore
    ensures Total(Ticks(inv, ore, n, stackable), id) == Total(inv, id)
    decreases n
  {
    if n > 0 {
      TicksOther(inv, ore, n - 1, stackable, id);
      AddItemAsOther(Ticks(inv, ore, n - 1, stackable), ore, 1, stackable, id);
    }
  }

  /** Copper and tin in particular. */
  lemma MineOreTicksStack(inv: seq<Slot>, ore: string, n: nat, id: string)
    requires ore == "copper_ore" || ore == "tin_ore"
    requires PositiveFor(inv, ore) && HasItem(inv, ore)
    ensures var r := MineTicks(inv, ore, n);
      && PositiveFor(r, ore) && HasItem(r, ore)
      && |r| == |inv|
      && Total(r, id) == Total(inv, id) + (if id == ore then n else 0)
  {
    OresStack();
    MineTicksStack(inv, ore, n, id);
  }
}
