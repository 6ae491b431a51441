# scapeagotchi core, modelled in Dafny

scapeagotchi is a browser game built with Phaser. The player trains skills, fights a chicken, mines copper and tin, smelts bars and forges bronze equipment. This project models the game's rules in Dafny and proves properties about them:

- **Combat** (`combat.dfy`, `combat_properties.dfy`). This is the OSRS-style attack resolver:
  - attack and defence rolls;
  - the two-branch hit chance;
  - max hit and the damage roll;
  - `performAttack`.

  It also covers the `CombatState` timer state machine. `CombatState.Update` is proved against the function `Combat.Step`. The properties of a call, and of any number of calls, are proved about that function.
- **Static tables** (`weapons.dfy`, `npcs.dfy`, `items.dfy`, `player.dfy`): the weapons, NPCs, items and recipes with their lookups, plus the starting player record.
- **Inventory rules** (`inventory.dfy`). An inventory is a sequence of `{itemId, quantity}` slots with a 48-slot cap, and the scenes change it in place. Totals per item are defined here, along with how each edit changes them. `AddItem` is the rule shared by loot pickup and mining.
- **The castle** (`castle.dfy`):
  - the shop purchase;
  - the furnace's capacity count and `doSmelt`;
  - the anvil's `countBars`, smithing level, `canMake` and `doForge`;
  - the "Smelt X" clamp.
- **The field** (`game.dfy`):
  - the chicken's hit box;
  - its loot roll and loot spawning;
  - picking loot up;
  - the combat snapshot `startCombat` builds;
  - what `onCombatEnd` does to the player.
- **The mines** (`mines.dfy`): the click zones, starting and stopping mining, and the ore tick.
- **The bitmap text renderer** (`monogram.dfy`): which unit squares `redraw` fills for a string, and the change-detecting setters.

Modelling choices:

- **Random draws.** Each `Math.random()` draw is an explicit `Draw`, a real in [0, 1).
- **Combat callbacks.** `onAttack`, `onHit` and `onCombatEnd` are recorded as events in the combat state's `events` log.
- **Lookups and null.** JavaScript's `null`/`undefined` is `Option`. A table lookup that falls back falls back in the model too (weapons to `unarmed`, glyphs to `'?'`).
- **Division.** JavaScript division of integers is the `Chance` datatype, so a zero divisor is modelled rather than excluded.
- **Scene input.** Scene time, the scene's active flag and the random draws are parameters of the methods that read them. Scene time (`this.time.now`) is a `real`, since Phaser's clock counts fractional milliseconds, and so are the two attack timers derived from it. Attack speeds are whole milliseconds, as in the tables.

The source's quirks are modelled as written:

- The player's weapon bonus is counted twice in combat. The snapshot copies the bonus and also passes the weapon, and the attack adds both.
- Capacity counts read only the first slot holding an item.
- The shop purchase has no 48-slot check.

## Model

| member | source | states |
|---|---|---|
| Weapons.GetWeapon | src/data/weapons.js:38-40 | the table entry for a known id, `unarmed` for any other; the result's attack speed is positive; it kills instantly iff it is the debug dagger |
| Weapons.WeaponTableFacts | src/data/weapons.js:6-36 | the four keys; each entry's id is its key; every speed is positive; only `debug_dagger` kills instantly; unarmed is 2400 ms with zero bonuses |
| Npcs.GetNpc | src/data/npcs.js:20-22 | `Some` exactly for ids in the table, then the entry, whose id is the key and whose attack speed is positive |
| Npcs.ChickenFacts | src/data/npcs.js:5-18 | the chicken is the only NPC: id `chicken`, 3 hitpoints, levels 1/1/1, speed 3000, all bonuses 0 |
| Items.GetItem | src/data/items.js:135-137 | `Some` exactly for known ids, with the entry, whose id is its key and whose `maxStack` is 999 iff it is stackable |
| Items.ItemTableFacts | src/data/items.js:5-112 | for every entry the id equals the key, and `maxStack` is 999 on stackable items and absent on the others |
| Items.ItemTableKeys | src/data/items.js:5-112 | the table holds exactly the fifteen listed ids |
| Items.RecipeTableFacts | src/data/items.js:115-133 | bronze bar = 1 copper ore + 1 tin ore giving 1 bar; four anvil recipes of 1 or 2 bars at level 1; every ore and every output is an item |
| PlayerState.CreateStat | src/state/player.js:11-15 | a stat of the given level and xp, carrying `current` only when one is given; `InitialStatsFacts` shows which skills get one |
| PlayerState.InitialStats | src/state/player.js:17-27 | the stats map `createPlayer` builds; `InitialStatsFacts` and `InitialCombatStats` state its keys and values |
| PlayerState.StatsForEntries | src/state/player.js:19-27 | the stats loop makes one entry per listed id, each that id's initial stat |
| PlayerState.StatIdsDistinct | src/state/player.js:6-9 | fourteen distinct skill ids |
| PlayerState.InitialStatsFacts | src/state/player.js:11-27 | exactly the fourteen `STAT_IDS` keys; hitpoints 10/0/current 10; prayer 1/0/current 0; every other skill level 1, xp 0, no current |
| PlayerState.InitialCombatStats | src/state/player.js:19-27 | a new player has attack, strength and defence at level 1 with no pool, and hitpoints 10 with 10 current |
| PlayerState.Player.Create | src/state/player.js:29-47 | those stats, 100 gold, empty inventory, all nine equipment slots empty, hunger 100, renown 0, experience 0 |
| PlayerState.Effective | src/scenes/CastleScene.js:584 | `quantity \|\| 1`: at least 1, and the quantity itself when it is positive |
| PlayerState.FindSlot | src/scenes/CastleScene.js:399 | the index of the first slot holding the item; `None` iff no slot holds it |
| PlayerState.KeepPositive | src/scenes/CastleScene.js:599 | the filtered inventory has only positive slots and is no longer than the original |
| Combat.AttackRoll | src/combat/combatEngine.js:12-14 | level plus bonus; `AttackRollAddsWeaponBonus` shows the bonus `performAttack` passes is the weapon's plus the attacker's own |
| Combat.DefenseRoll | src/combat/combatEngine.js:20-22 | level plus bonus; `SnapshotCountsWeaponTwice` shows the player's defence roll is the bare level |
| Combat.HitChance | src/combat/combatEngine.js:29-35 | the two-branch chance as a JavaScript number, a zero divisor included; `HitChanceBounds` and `HitChanceFormula` state its range and its branches |
| Combat.RollAccuracy | src/combat/combatEngine.js:40-43 | the blow lands iff the draw is below `HitChance`, with every comparison against NaN false; `PerformAttack` states that a hit is exactly this |
| Combat.HitChanceBounds | src/combat/combatEngine.js:29-35 | for non-negative rolls the chance is a real in [0, 1), and it is at least 1/2 iff the attack roll beats the defence roll |
| Combat.HitChanceFormula | src/combat/combatEngine.js:29-35 | the two branches: `1 - (def+2)/(2(att+1))` when att > def, `att/(2(def+1))` otherwise |
| Combat.MaxHit | src/combat/combatEngine.js:51-54 | at least 1; from 8 up it is `floor((str+bonus)/8)` (`8m <= s < 8m+8`); below 16 it is 1 |
| Combat.MaxHitExamples | src/combat/combatEngine.js:45-54 | strength 1, 7 and 8 give 1 and 16 gives 2, the doc comment's values |
| Combat.RollDamage | src/combat/combatEngine.js:59-61 | the floor of `r*(maxHit+1)`, lying in [0, maxHit] when maxHit >= 0 |
| Combat.PerformAttack | src/combat/combatEngine.js:67-101 | insta-kill weapon: hit for 999 with no draw; otherwise hit iff the first draw is below the hit chance of the weapon-boosted rolls; a miss does 0 and uses one draw; a hit uses two and does 0..max hit |
| Combat.AttackRollAddsWeaponBonus | src/combat/combatEngine.js:77-97 | the attack roll and max hit add the weapon's bonus to the attacker's own |
| Combat.MissingWeaponIsUnarmed | src/combat/combatEngine.js:69 | with no weapon object the attacker fights with `unarmed`: no weapon bonus, no insta-kill |
| Combat.Actor.constructor | src/scenes/GameScene.js:1148-1169 | a combat record with its current and maximum hitpoints |
| Combat.CombatState.constructor | src/combat/combatEngine.js:108-119 | weapon from `getWeapon`, attacker timer 0, defender timer `attackSpeed \|\| 3000`, active, empty log |
| Combat.AttackerTurn | src/combat/combatEngine.js:129-149 | the attacker branch on the session; `AttackerTurnShape`, `TurnOrder` and `StepTimers` state its log, its callback order and its timer |
| Combat.DefenderTurn | src/combat/combatEngine.js:152-172 | the defender branch, run only for a truthy attack speed; `DefenderTurnShape` and `StepStrikes` state its log and when it strikes |
| Combat.Step | src/combat/combatEngine.js:125-175 | `update` as a function of the session; `CombatState.Update` is proved to compute it, and the `CombatProperties` lemmas state its properties over one call and many |
| Combat.CombatState.Update | src/combat/combatEngine.js:125-175 | the new hitpoints, timers, active flag, log and return value are those of `Step` on the old state |
| Combat.CombatState.AttackerBranch | src/combat/combatEngine.js:129-149 | the state after the attacker's branch is `AttackerTurn` of the old one |
| Combat.CombatState.DefenderBranch | src/combat/combatEngine.js:152-172 | the state after the defender's branch is `DefenderTurn` of the old one |
| Combat.CombatState.Stop | src/combat/combatEngine.js:177-179 | only `active` changes, to false; no event is logged |
| CombatProperties.AttackerTurnShape | src/combat/combatEngine.js:129-149 | the attacker branch logs `onAttack`, `onHit` and, when lethal, `onCombatEnd` after the old log, or nothing when not due |
| CombatProperties.DefenderTurnShape | src/combat/combatEngine.js:152-172 | the same for the defender branch, which is due only with a truthy attack speed |
| CombatProperties.OrderOfTurns | src/combat/combatEngine.js:134-171 | attacker events then defender events form a well-ordered callback sequence |
| CombatProperties.OrderOfLethalTurn | src/combat/combatEngine.js:134-148 | a lethal attacker branch's events are well ordered, ending with `onCombatEnd` |
| CombatProperties.TurnOrder | src/combat/combatEngine.js:134-148 | one branch's callbacks are well ordered, all by that side, with an end event only when the blow was lethal |
| CombatProperties.OrderConcat | src/combat/combatEngine.js:129-171 | an attacker branch that did not end the fight, followed by a defender branch, is well ordered |
| CombatProperties.TurnsEnd | src/combat/combatEngine.js:151-171 | the two branches end with `onCombatEnd` iff the defender struck and its blow was lethal |
| CombatProperties.StepAfterEnd | src/combat/combatEngine.js:126 | on an inactive state `update` returns false and changes nothing |
| CombatProperties.StepResult | src/combat/combatEngine.js:125-175 | the return value equals the new `active`; at most four draws; an ended fight never restarts |
| CombatProperties.StepHitpoints | src/combat/combatEngine.js:131-154 | both hitpoints stay >= 0 and never increase |
| CombatProperties.StepLog | src/combat/combatEngine.js:129-172 | the new log is the old log, then the attacker branch's events, then (unless that ended the fight) the defender branch's |
| CombatProperties.StepTimers | src/combat/combatEngine.js:132-155 | a side that strikes reschedules to `time +` its speed (the attacker uses the weapon's); a side that does not keeps its timer |
| CombatProperties.StepStrikes | src/combat/combatEngine.js:129-155 | each side strikes at most once per call: the attacker exactly when due, the defender exactly when due, truthy and not preempted |
| CombatProperties.StepCallbackOrder | src/combat/combatEngine.js:134-171 | the log only grows; the new events are well ordered; an end event is logged iff the call ended the fight, and it comes last |
| CombatProperties.LethalAttackerBlowPreemptsDefender | src/combat/combatEngine.js:142-148 | a lethal attacker blow ends the fight at 0 hitpoints and the defender neither strikes nor reschedules |
| CombatProperties.StepSameTimeIdempotent | src/combat/combatEngine.js:129-155 | with a positive weapon speed, a second call at the same time changes nothing |
| CombatProperties.PassiveDefenderStep | src/combat/combatEngine.js:152 | a defender with no attack speed never strikes: only attacker events, attacker hitpoints unchanged |
| CombatProperties.RunAfterEnd | src/combat/combatEngine.js:126 | any number of calls after the end change nothing |
| CombatProperties.RunHitpoints | src/combat/combatEngine.js:131-154 | over any number of calls hitpoints stay >= 0 and never increase, and the log only grows |
| CombatProperties.PassiveDefenderNeverStrikes | src/combat/combatEngine.js:152 | over any number of calls a passive defender never strikes and the attacker keeps its hitpoints |
| InventoryFacts.AddItem | src/scenes/GameScene.js:808-823 | the pickup rule (stack onto the first slot of a stackable item, else append while under 48 slots); `AddItemTotals` and `AddItemKeepsPositive` state what it does to totals and slots |
| InventoryFacts.AddItemAs | src/scenes/GameScene.js:808-823 | the same rule with the item's stackability as a parameter; `StackOnto` and `AddItemAsOther` state its effect on totals |
| InventoryFacts.AppendIfRoom | src/scenes/GameScene.js:821-823 | append exactly when fewer than 48 slots are used, otherwise unchanged |
| InventoryFacts.TotalKeepPositive | src/scenes/CastleScene.js:599 | dropping empty slots keeps every item's total |
| InventoryFacts.KeepPositiveOfPositive | src/scenes/CastleScene.js:599 | the filter leaves an inventory with no empty slot unchanged |
| InventoryFacts.FirstQuantityBelowTotal | src/scenes/CastleScene.js:399-400 | the first slot's quantity is at most the item's total, and positive iff the item is held |
| InventoryFacts.TotalPositive | src/scenes/CastleScene.js:399-400 | a positive total iff some slot holds the item |
| InventoryFacts.AddItemTotals | src/scenes/GameScene.js:808-823 | adding raises the item's total by the quantity when it stacks or there is room, and by nothing otherwise; other totals unchanged; a new slot iff it neither stacks nor finds the inventory full |
| InventoryFacts.AddItemKeepsPositive | src/scenes/GameScene.js:808-823 | a positive addition keeps every slot positive |
| InventoryFacts.AddItemOntoEmptyStack | src/scenes/GameScene.js:813 | a stack stored at quantity 0 counts as 1 before the addition |
| InventoryFacts.AddItemStacksPositive | src/scenes/GameScene.js:811-815 | stacking onto a held item keeps it held and positive |
| InventoryFacts.StackOnto | src/scenes/GameScene.js:811-815 | stacking onto a held item adds no slot, keeps it held and positive, and raises only its total, by the quantity |
| InventoryFacts.AddItemAsOther | src/scenes/GameScene.js:808-823 | adding an item never changes another item's total |
| Castle.BuyDisabled | src/scenes/CastleScene.js:325-327 | the button's `disabled` flag; `PickaxeBoughtOnce` states when it holds and that a purchase sets it |
| Castle.ClickBuy | src/scenes/CastleScene.js:351-356 | the price is paid and one unit appended, with no capacity check |
| Castle.PickaxeBoughtOnce | src/scenes/CastleScene.js:325-327 | buying is enabled iff gold >= 50 and no pickaxe is held; a purchase leaves gold >= 0, adds a slot even to a full inventory, and disables the button |
| Castle.MaxSmeltable | src/scenes/CastleScene.js:392-404 | the furnace's capacity; `MaxSmeltableBronze`, `MaxSmeltableFeasible` and `CountMaxSmeltable` state its value and that it is feasible |
| Castle.MinCapacityIsMinimum | src/scenes/CastleScene.js:398-403 | the running minimum is `None` only for no ores, otherwise the least `floor(have/amount)`, attained by some ore |
| Castle.MaxSmeltableFeasible | src/scenes/CastleScene.js:392-404 | smelting the maximum never needs more of an ore than its first slot holds |
| Castle.MaxSmeltableBronze | src/scenes/CastleScene.js:392-404 | bronze capacity is the smaller of the first copper and first tin slot quantities |
| Castle.CountMaxSmeltable | src/scenes/CastleScene.js:392-404 | the loop returns `MaxSmeltable`: 0 for an unknown bar, otherwise the minimum over the ores |
| Castle.TakeFromAt | src/scenes/CastleScene.js:582-589 | the inner walk from slot `k`, keeping the number of slots; `TakeFromAtTotal`, `TakeFromAtOther` and `TakeFromAtShape` state what it removes |
| Castle.TakeFrom | src/scenes/CastleScene.js:582-589 | the walk over the slots keeps the number of slots |
| Castle.TakeOres | src/scenes/CastleScene.js:579-590 | the ore loop keeps the number of slots; `TakeOresTotal` states what it removes |
| Castle.TakeOresTotal | src/scenes/CastleScene.js:579-590 | for ores with distinct ids, each ore's total falls by `min(amount × toSmelt, its total)`; an item no ore names keeps its total and stays positive |
| Castle.RecipeOresDistinct | src/data/items.js:115-123 | every smelting recipe names each ore once, and never its own bar |
| Castle.PlaceBars | src/scenes/CastleScene.js:591-598 | bar placement; `PlaceBarsTotal` states its effect on totals |
| Castle.SmeltResult | src/scenes/CastleScene.js:571-599 | the inventory after `doSmelt`; `DoSmelt` is proved to compute it, and `SmeltNoOp`, `SmeltBronze` and `ClampedAmountSmeltedInFull` state what it smelts |
| Castle.DoSmelt | src/scenes/CastleScene.js:571-599 | the new inventory is `SmeltResult` of the old one |
| Castle.TakeAllOres | src/scenes/CastleScene.js:579-590 | the outer loop computes `TakeOres` |
| Castle.TakeOre | src/scenes/CastleScene.js:582-589 | the inner loop with its early `break` computes `TakeFrom` |
| Castle.AddBars | src/scenes/CastleScene.js:591-598 | bar placement computes `PlaceBars` |
| Castle.TakeFromTotal | src/scenes/CastleScene.js:582-589 | taking removes exactly `min(remaining, total)` of the ore and changes no other item's total |
| Castle.TakeFromShape | src/scenes/CastleScene.js:582-589 | every slot keeps its item, and slots of other items are untouched |
| Castle.TakeFromKeepsOthers | src/scenes/CastleScene.js:582-589 | other items stay held and positive exactly as before |
| Castle.TakeFromAtTotal | src/scenes/CastleScene.js:582-589 | the walk from slot `k` on removes exactly `min(remaining, total from k on)` of the ore |
| Castle.TakeFromAtOther | src/scenes/CastleScene.js:582-589 | the walk changes no other item's total |
| Castle.PlaceBarsTotal | src/scenes/CastleScene.js:591-598 | bars are added to the total when a bar slot exists or there is room, otherwise lost; other totals unchanged |
| Castle.SmeltNoOp | src/scenes/CastleScene.js:571-578 | an unknown bar, an amount <= 0 or zero capacity leaves the inventory unchanged |
| Castle.SmeltBronze | src/scenes/CastleScene.js:571-599 | smelting bronze removes `n = min(amount, capacity)` copper and `n` tin, adds `n` bars when a bar slot exists or there is room, keeps every other total, and leaves only positive slots |
| Castle.BronzeOresTaken | src/scenes/CastleScene.js:579-590 | the ore loops of a bronze smelt remove `n` of each ore and leave other items as they were |
| Castle.BronzeTakeOres | src/data/items.js:115-123 | the bronze recipe takes `n` copper ore and then `n` tin ore |
| Castle.TwoOresTaken | src/scenes/CastleScene.js:579-590 | taking `n` of one ore and then `n` of another removes `n` of each and leaves every third item as it was |
| Castle.CountBars | src/scenes/CastleScene.js:614-618 | 0 iff no slot holds the bar; with positive slots it is at most the bar total |
| Castle.SmithingLevel | src/scenes/CastleScene.js:620-624 | never 0; the stat's level when it is non-zero; 1 when the stat is missing |
| Castle.FreshSmithingLevel | src/scenes/CastleScene.js:620-624 | a new player smiths at level 1 |
| Castle.CanMake | src/scenes/CastleScene.js:769 | enough bars and a high enough smithing level; `CanMakeForges` states that a makeable recipe forges |
| Castle.SpendBars | src/scenes/CastleScene.js:831-835 | spending from one slot; `SpendBarsTotal` states its effect on slots and totals |
| Castle.ForgeResult | src/scenes/CastleScene.js:827-840 | the inventory after `doForge`; `DoForge` is proved to compute it, and `ForgeNoOp`, `ForgeTotals` and `CanMakeForges` state what it forges |
| Castle.DoForge | src/scenes/CastleScene.js:827-840 | the new inventory is `ForgeResult` of the old one |
| Castle.SpendSlot | src/scenes/CastleScene.js:831-835 | the decrement and splice compute `SpendBars` |
| Castle.SpendBarsTotal | src/scenes/CastleScene.js:831-835 | the slot is removed iff it is emptied, and its item's total falls by the bars spent |
| Castle.ForgeNoOp | src/scenes/CastleScene.js:830 | no bar slot, or too few bars in the first one, leaves the inventory unchanged |
| Castle.ForgeTotals | src/scenes/CastleScene.js:827-840 | a successful forge removes exactly `barCost` bars, adds one item iff there is room after the splice, keeps other totals, and leaves only positive slots |
| Castle.ForgeTotal | src/scenes/CastleScene.js:827-840 | the same facts for a given first bar slot |
| Castle.CanMakeForges | src/scenes/CastleScene.js:769-790 | a recipe shown as makeable forges: bars fall by the recipe's cost |
| Castle.ClampSmeltAmount | src/scenes/CastleScene.js:550 | the amount lies in [0, max]: the input when it is in range, max above that, 0 when it is unparsable or <= 0 |
| Castle.ClampedAmountSmeltedInFull | src/scenes/CastleScene.js:550-551 | smelting a clamped bronze amount `n` takes exactly `n` copper and `n` tin ore and adds `n` bars when a bar slot exists or there is room |
| Game.HitTestChicken | src/scenes/GameScene.js:486-494 | false with no chicken; otherwise true iff the point is within 50 horizontally and 35 vertically of the chicken, edges included |
| Game.FeatherCount | src/scenes/GameScene.js:705 | between 20 and 50 |
| Game.FeatherCountsReachable | src/scenes/GameScene.js:705 | every count from 20 to 50 is rolled by some draw |
| Game.RollLoot | src/scenes/GameScene.js:700-712 | no NPC but the chicken drops anything |
| Game.ChickenLoot | src/scenes/GameScene.js:700-712 | bones 1, raw chicken 1, 20-50 feathers, and an egg iff the second draw is below 0.5; every drop is a known item with a positive quantity |
| Game.FindLoot | src/scenes/GameScene.js:826 | the index of the first entry with that container; `None` iff there is none |
| Game.RemoveLoot | src/scenes/GameScene.js:825-829 | the ground list after removing the first entry for a container; `RemoveLootDistinct` and `RemoveLootKeepsDistinct` state what it keeps |
| Game.RemoveAt | src/scenes/GameScene.js:828 | the entries before the index stay and those after it move up one |
| Game.RemoveLootDistinct | src/scenes/GameScene.js:825-829 | with distinct containers, removal keeps exactly the other entries and shortens the list by one iff the container was present |
| Game.RemoveLootKeepsDistinct | src/scenes/GameScene.js:825-829 | removal keeps containers distinct |
| Game.WeaponIdOf | src/scenes/GameScene.js:1145 | the equipped weapon id, or `unarmed` when it is missing or empty |
| Game.PlayerFighter | src/scenes/GameScene.js:1145-1157 | the player's combat snapshot; `SnapshotCountsWeaponTwice` and `NewPlayerSnapshot` state its rolls |
| Game.NpcFighter | src/scenes/GameScene.js:1159-1169 | the NPC's combat snapshot; `NpcSnapshotCountsOnce` states its rolls |
| Game.SnapshotCountsWeaponTwice | src/scenes/GameScene.js:1145-1157 | the player's attack roll is level + 2 × the weapon's attack bonus, and max hit uses 2 × its strength bonus; defence is the bare level |
| Game.NewPlayerSnapshot | src/scenes/GameScene.js:1145-1157 | a new player has the stats a snapshot needs, fights unarmed with every roll and max hit at 1, and has 10 of 10 hitpoints |
| Game.NpcSnapshotCountsOnce | src/scenes/GameScene.js:1159-1169 | an NPC fights unarmed, with its own bonuses counted once |
| Game.ChickenStrikesBack | src/combat/combatEngine.js:152 | with the chicken defending, the defender strikes iff the fight is on, the player's blow was not lethal and its timer is due |
| Game.RespawnHitpoints | src/scenes/GameScene.js:1545 | at least 1; half the level rounded down from level 2 up; 1 below level 4 |
| Game.GameScene.constructor | src/scenes/GameScene.js:389-394 | no ground loot, no fight, no combat NPC |
| Game.GameScene.CreateGroundLoot | src/scenes/GameScene.js:728-795 | an unknown item is skipped; a known one is appended with a fresh container; containers stay distinct |
| Game.GameScene.DropLoot | src/scenes/GameScene.js:698-722 | every rolled drop is appended in order, each with its own fresh container |
| Game.GameScene.PickupLoot | src/scenes/GameScene.js:800-829 | the inventory becomes `AddItem` of the old one; the ground list loses its first entry for the container, whether or not the item found room |
| Game.GameScene.AddToInventory | src/scenes/GameScene.js:808-823 | the stacking loop and the append compute `AddItem` |
| Game.GameScene.RemoveFromGround | src/scenes/GameScene.js:825-829 | `findIndex` and `splice` compute `RemoveLoot`, keeping containers distinct |
| Game.GameScene.StartCombat | src/scenes/GameScene.js:1132-1178 | any running fight is stopped, only its `active` flag changing (its log and timers are kept); for a known NPC a new fight starts from fresh snapshots, the NPC's first attack due at `now + (speed \|\| 3000)`; for an unknown one nothing else changes |
| Game.GameScene.OnCombatEnd | src/scenes/GameScene.js:1445-1550 | a win adds 5 experience; a loss sets current hitpoints to `RespawnHitpoints(level)`; either way the fight and its NPC are cleared |
| Mines.InZone | src/scenes/MinesScene.js:199-201 | the closed-box test of the click handler; `ClassifyClick` states which ore each box offers |
| Mines.TinZone | src/scenes/MinesScene.js:34 | the tin box, reaching the scene width; `ClassifyClick` states it is offered exactly over it |
| Mines.ClassifyClick | src/scenes/MinesScene.js:197-205 | copper iff inside the copper box, tin iff inside the tin box (the boxes of lines 33-34 do not overlap), no menu iff inside neither |
| Mines.MinesScene.constructor | src/scenes/MinesScene.js:19-21 | not mining, no ore, no timer |
| Mines.MinesScene.TimerMatches | src/scenes/MinesScene.js:368-382 | a pending timer is for the ore being mined; every scene method keeps it, so the tick's changed-ore guard fires only for a stale timer |
| Mines.MinesScene.StopMining | src/scenes/MinesScene.js:358-366 | no timer, no ore, not mining |
| Mines.MinesScene.ScheduleNextOre | src/scenes/MinesScene.js:368-373 | an inactive scene or a changed ore stops mining; otherwise a timer is set for the ore |
| Mines.MinesScene.TryStartMining | src/scenes/MinesScene.js:340-355 | without a pickaxe slot mining stops; with one it mines the ore with a timer set, or stops when the scene is inactive |
| Mines.MinesScene.OreTick | src/scenes/MinesScene.js:373-395 | the timer is consumed; when the scene is active and the ore unchanged one ore is added as by `AddItem` and the next timer set; otherwise mining stops with nothing awarded |
| Mines.OresStack | src/data/items.js:67-80 | copper and tin ore stack |
| Mines.OreTickTotals | src/scenes/MinesScene.js:384-395 | a tick raises the ore's total by 1 unless the inventory is full and holds none; no other total changes |
| Mines.MineTicksStack | src/scenes/MinesScene.js:384-395 | once a stackable ore is held, `n` ticks add exactly `n` of it, keep it held and positive, keep the slot count and leave other items alone |
| Mines.MineOreTicksStack | src/scenes/MinesScene.js:384-395 | the same for copper and tin ore |
| Mines.TicksOther | src/scenes/MinesScene.js:384-393 | no number of ticks changes another item's total |
| Monogram.Glyph | src/gameobjects/MonogramText.js:45 | the character's rows, else `'?'`'s, else `' '`'s, else twelve zero rows |
| Monogram.RowUpToMembers | src/gameobjects/MonogramText.js:50-55 | after `col` rounds the column loop has filled column `x + k` exactly for the set bits `k` it has reached (bit 4 first), mirroring the glyph |
| Monogram.GlyphUpToMembers | src/gameobjects/MonogramText.js:47-56 | the row loop draws font row `r` at height `11 - r`; missing rows draw nothing |
| Monogram.TextUpToMembers | src/gameobjects/MonogramText.js:43-58 | the character loop places character `i` at column `6i` |
| Monogram.TextPixels | src/gameobjects/MonogramText.js:36-59 | the squares `redraw` fills; `Redraw` is proved to leave exactly these, and `PixelsExactly` characterises them |
| Monogram.Lit | src/gameobjects/MonogramText.js:43-58 | a closed-form test: under character `x / 6`, in its five columns and twelve rows, over a set bit; `PixelsExactly` shows it agrees with `TextPixels` |
| Monogram.PixelsExactly | src/gameobjects/MonogramText.js:43-58 | the square (6i + k, 11 − r) is drawn iff bit k (k <= 4) of row r of character i's glyph is set |
| Monogram.PixelsInsideBox | src/gameobjects/MonogramText.js:49-55 | every drawn square has 0 <= x < 6·length − 1 and 0 <= y <= 11 |
| Monogram.EmptyTextBlank | src/gameobjects/MonogramText.js:38 | the empty text draws nothing |
| Monogram.UnknownCharDrawsQuestionMark | src/gameobjects/MonogramText.js:45 | with a `'?'` glyph, an unknown character draws exactly as `'?'` |
| Monogram.NoGlyphsBlank | src/gameobjects/MonogramText.js:45 | a font with neither the characters nor `'?'` nor `' '` draws nothing |
| Monogram.LowBitsRow | src/gameobjects/MonogramText.js:45-48 | cutting a font to its low five bits cuts every looked-up row the same way |
| Monogram.LowBitTest | src/gameobjects/MonogramText.js:51 | testing bit k <= 4 ignores the higher bits |
| Monogram.HighBitsNeverDrawn | src/gameobjects/MonogramText.js:50-51 | bits above bit 4 are never drawn: a font cut to five bits draws the same picture |
| Monogram.MonogramText.constructor | src/gameobjects/MonogramText.js:12-20 | the given text, font and colour, with the picture showing the text |
| Monogram.MonogramText.SetText | src/gameobjects/MonogramText.js:22-27 | the text becomes the argument and the picture shows it; an equal text changes nothing |
| Monogram.MonogramText.SetColor | src/gameobjects/MonogramText.js:29-34 | the colour becomes the argument; the picture keeps its squares and is drawn in that colour |
| Monogram.MonogramText.Redraw | src/gameobjects/MonogramText.js:36-59 | the nested loops leave exactly `TextPixels` of the text, in the current colour |
| Monogram.MonogramText.DrawGlyph | src/gameobjects/MonogramText.js:47-56 | the row loop adds one glyph's squares |
| Monogram.MonogramText.DrawRow | src/gameobjects/MonogramText.js:50-55 | the column loop adds one row's squares |
| Monogram.MonogramText.Width | src/gameobjects/MonogramText.js:61-63 | positive iff there is text, and every drawn square lies left of it |
| Monogram.MonogramText.Height | src/gameobjects/MonogramText.js:65-67 | every drawn square lies above it |

## Left out

- Saving and loading (src/state/save.js) and the lazy global player (src/state/gameState.js) are not modelled. Scene methods take the player explicitly.
- UI scenes, Phaser drawing, menus, DOM listeners and the forge `<input>` element are not modelled. The parsed input is a parameter of `Castle.ClampSmeltAmount`.
- Tweens and `time.delayedCall` are left out:
  - The mining timer is a pending-tick field fired by `Mines.MinesScene.OreTick`.
  - The 2-second status resets are left out.
  - The chicken's death animation, its removal and its 3-second respawn are left out.
  - The loot drop that the animation schedules is the separate method `Game.GameScene.DropLoot`.
- Game.GameScene.DropLoot: takes the NPC id as a parameter. The source's delayed drop reads `this.combatNpc` (src/scenes/GameScene.js:1522) after `onCombatEnd` has already cleared it (src/scenes/GameScene.js:1550), so as written it drops the chicken's loot unless another fight has started in the meantime. The scheduling that decides which NPC id is read is not modelled.
- The drawing-only parts of the scenes are left out: `screenToGame` coordinate conversion, HP-bar geometry, the cos/sin loot spread, chicken wandering and facing, and attack animations.
- The status labels are not modelled, nor the hitpoints sync in `onCombatHit`, which copies the actor's hitpoints back into the player's stats.
- Combat callbacks are not function values. The event log records which callback fired, for which side and with which result.
- JavaScript's dynamic typing is not modelled:
  - Table lookups of prototype keys such as `"constructor"`.
  - `String(text)` conversion of non-strings.
  - Non-integer font rows. Rows are taken after the 32-bit conversion that `&` performs.
- Strings are sequences of Dafny characters, not UTF-16 code units.
- ChickenLoot: `dropLoot`'s `try/catch` is left out; nothing in the modelled rules throws.
- Game.GameScene.StartCombat: requires the attack, strength, defence and hitpoints stats, with a current hitpoints value. Without them the source computes `undefined`/`NaN` hitpoints, which the model does not represent.
- Game.GameScene.OnCombatEnd: requires the hitpoints stat when the player loses, for the same reason.
- Game.PlayerFighter: the snapshot's attack speed is 0, standing for the source's missing field. `CombatState` never reads the attacker's attack speed.
- Combat.PerformAttack: requires two draws and `Combat.CombatState.Update` requires four. These are upper bounds on the draws consumed, so every path has its draws; the counts used are returned.
- Combat.CombatState.constructor: requires distinct actors. The scene always builds two fresh ones.
- Castle.TakeOres: its own contract states only that the slot count is kept; what it removes is stated by `Castle.TakeOresTotal` for any ores with distinct ids, and by `Castle.BronzeOresTaken` for the bronze recipe.
- Castle.TakeFrom: its own contract states only that the slot count is kept; what it removes is stated by `Castle.TakeFromTotal` and `Castle.TakeFromShape`.
- Slot quantities are natural numbers: a missing quantity and 0 are both 0, which the source's `q || 1` and `(q || 0) > 0` treat alike. Negative quantities are not representable.
- Recipe ore amounts are positive by type, as every entry in the table is. `floor(have / 0)` is never needed.
- Lemmas about inventory totals assume every slot of the item is positive. This is the invariant every operation maintains, and `InventoryFacts.AddItemOntoEmptyStack` covers the one case where it matters.
- Mines: the changed-ore guard of the tick is reachable only through a stale timer. `Mines.MinesScene.TimerMatches` shows that the modelled methods never leave one.
- The max-28 comment in src/state/player.js:32 is not a rule. Every enforced limit in the code is 48, and the model follows the code.
