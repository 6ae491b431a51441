/** The castle's shop, furnace (smelting) and anvil (forging) rules, as they change the
    player's gold and inventory. */
module Castle {
  import opened Common
  import opened Items
  import opened PlayerState
  import opened InventoryFacts

  // ---------------------------------------------------------------- shop

  datatype ShopItem = ShopItem(itemId: string, name: string, price: int)

  const Pickaxe := "bronze_pickaxe"

  /** `SHOP_ITEMS`: the only ware is the bronze pickaxe at 50 gold. */
  const ShopItems: seq<ShopItem> := [ShopItem(Pickaxe, "Bronze pickaxe", 50)]

  /** The buy button is disabled when the player cannot afford the item, or when the item
      is the pickaxe and one is already in the inventory. */
  predicate BuyDisabled(gold: int, inv: seq<Slot>, item: ShopItem) {
    gold < item.price || (item.itemId == Pickaxe && HasItem(inv, Pickaxe))
  }

  /** The buy handler, which exists only while the button is enabled: pay the price and
      append one unit, with no capacity check. */
  method ClickBuy(player: Player, item: ShopItem)
    requires !BuyDisabled(player.gold, player.inventory, item)
    modifies player`gold, player`inventory
    ensures player.gold == old(player.gold) - item.price
    ensures player.inventory == old(player.inventory) + [Slot(item.itemId, 1)]
  {
    player.gold := player.gold - item.price;
    player.inventory := player.inventory + [Slot(item.itemId, 1)];
  }

  /** The pickaxe can be bought exactly when it is affordable and not yet owned; a purchase
      never leaves the gold negative, adds a slot even to a full inventory, and disables
      the button for the refreshed menu. */
  lemma PickaxeBoughtOnce(gold: int, inv: seq<Slot>)
    ensures !BuyDisabled(gold, inv, ShopItems[0]) <==> gold >= 50 && !HasItem(inv, Pickaxe)
    ensures !BuyDisabled(gold, inv, ShopItems[0]) ==>
      && gold - 50 >= 0
      && |inv + [Slot(Pickaxe, 1)]| == |inv| + 1
      && BuyDisabled(gold - 50, inv + [Slot(Pickaxe, 1)], ShopItems[0])
  {
    assert (inv + [Slot(Pickaxe, 1)])[|inv|].itemId == Pickaxe;
  }

  // ---------------------------------------------------------------- smelting capacity

  /** The running minimum of `countMaxSmeltable` over `ores`: `None` is the initial
      `Infinity`, each ore contributes `floor(have / amount)`. */
  function MinCapacity(inv: seq<Slot>, ores: seq<OreAmount>): Option<nat>
    decreases |ores|
  {
    if ores == [] then None
    else
      var ore := ores[|ores| - 1];
      var m := FirstQuantity(inv, ore.itemId) / ore.amount;
      match MinCapacity(inv, ores[..|ores| - 1])
      case None => Some(m)
      case Some(p) => Some(if p <= m then p else m)
  }

  /** The number of bars the player's ores allow: 0 for an unknown bar or an empty
      recipe, otherwise the smallest `floor(have / amount)` over the recipe's ores. */
  function MaxSmeltable(inv: seq<Slot>, barId: string): nat {
    if barId !in SmeltRecipes then 0
    else MinCapacity(inv, SmeltRecipes[barId].ores).GetOr(0)
  }

  /** The running minimum is the least `floor(have / amount)` and is attained by some ore. */
  lemma {:induction false} MinCapacityIsMinimum(inv: seq<Slot>, ores: seq<OreAmount>)
    ensures MinCapacity(inv, ores).None? <==> ores == []
    ensures MinCapacity(inv, ores).Some? ==>
      (forall i :: 0 <= i < |ores| ==>
         MinCapacity(inv, ores).value <= FirstQuantity(inv, ores[i].itemId) / ores[i].amount)
    ensures MinCapacity(inv, ores).Some? ==>
      (exists i :: 0 <= i < |ores| &&
         MinCapacity(inv, ores).value == FirstQuantity(inv, ores[i].itemId) / ores[i].amount)
    decreases |ores|
  {
    if ores != [] {
      var init := ores[..|ores| - 1];
      MinCapacityIsMinimum(inv, init);
      assert forall i :: 0 <= i < |init| ==> init[i] == ores[i];
    }
  }

  /** Smelting `MaxSmeltable` bars needs no more of any ore than its first slot holds. */
  lemma MaxSmeltableFeasible(inv: seq<Slot>, barId: string, i: nat)
    requires barId in SmeltRecipes && i < |SmeltRecipes[barId].ores|
    ensures MaxSmeltable(inv, barId) * SmeltRecipes[barId].ores[i].amount <=
            FirstQuantity(inv, SmeltRecipes[barId].ores[i].itemId)
  {
    var ores := SmeltRecipes[barId].ores;
    MinCapacityIsMinimum(inv, ores);
    var q, a := FirstQuantity(inv, ores[i].itemId), ores[i].amount;
    FloorTimes(MaxSmeltable(inv, barId), q, a);
  }

  lemma FloorTimes(m: nat, q: nat, a: int)
    requires a > 0 && m <= q / a
    ensures m * a <= q
  {
    assert m * a <= (q / a) * a;
  }

  /** For bronze bars the capacity is the smaller of the first copper and first tin slot. */
  lemma MaxSmeltableBronze(inv: seq<Slot>)
    ensures MaxSmeltable(inv, "bronze_bar") ==
      Min(FirstQuantity(inv, "copper_ore"), FirstQuantity(inv, "tin_ore"))
  {
    var ores := SmeltRecipes["bronze_bar"].ores;
    assert ores[..1] == [OreAmount("copper_ore", 1)];
    assert ores[..1][..0] == [];
    var cu, sn := FirstQuantity(inv, "copper_ore"), FirstQuantity(inv, "tin_ore");
    assert cu / 1 == cu && sn / 1 == sn;
    assert MinCapacity(inv, ores[..1]) == Some(cu);
    assert MinCapacity(inv, ores) == Some(if cu <= sn then cu else sn);
  }

  /** `countMaxSmeltable(barId)`. */
  method CountMaxSmeltable(player: Player, barId: string) returns (n: nat)
    ensures n == MaxSmeltable(player.inventory, barId)
  {
    if barId !in SmeltRecipes {
      return 0;
    }
    var recipe := SmeltRecipes[barId];
    var inv := player.inventory;
    var min: Option<nat> := None;
    var i := 0;
    while i < |recipe.ores|
      invariant 0 <= i <= |recipe.ores|
      invariant min == MinCapacity(inv, recipe.ores[..i])
    {
      var ore := recipe.ores[i];
      var slot := FindSlot(inv, ore.itemId);
      var have := if slot.Some? then Effective(inv[slot.value].quantity) else 0;
      var m := have / ore.amount;
      min := match min
        case None => Some(m)
        case Some(p) => Some(if p <= m then p else m);
      assert recipe.ores[..i + 1][..i] == recipe.ores[..i];
      i := i + 1;
    }
    assert recipe.ores[..i] == recipe.ores;
    n := min.GetOr(0);
  }

  // ---------------------------------------------------------------- smelting

  /** One ore's pass of the inner loop of `doSmelt`, from slot `k` on: take
      `min(remaining, quantity || 1)` from each slot of `id` in order, and stop once
      nothing remains to take. A slot is never taken below zero. */
  function TakeFromAt(inv: seq<Slot>, k: nat, id: string, remaining: int): (r: seq<Slot>)
    requires k <= |inv|
    ensures |r| == |inv|
    decreases |inv| - k
  {
    if k == |inv| then inv
    else if inv[k].itemId != id then TakeFromAt(inv, k + 1, id, remaining)
    else
      var have := Effective(inv[k].quantity);
      var take := Min(remaining, have);
      var next := inv[k := Slot(id, have - take)];
      if remaining - take <= 0 then next else TakeFromAt(next, k + 1, id, remaining - take)
  }

  /** The whole pass, from the first slot. */
  function TakeFrom(inv: seq<Slot>, id: string, remaining: int): (r: seq<Slot>)
    ensures |r| == |inv|
  {
    TakeFromAt(inv, 0, id, remaining)
  }

  /** The outer loop of `doSmelt`: each ore of the recipe in turn, `amount * toSmelt` of it. */
  function TakeOres(inv: seq<Slot>, ores: seq<OreAmount>, toSmelt: int): (r: seq<Slot>)
    ensures |r| == |inv|
    decreases |ores|
  {
    if ores == [] then inv
    else
      var ore := ores[|ores| - 1];
      TakeFrom(TakeOres(inv, ores[..|ores| - 1], toSmelt), ore.itemId, ore.amount * toSmelt)
  }

  /** How much of `id` the ores call for per bar: the amounts of the ores with that id,
      0 exactly when none of them is `id`. */
  function OreNeed(ores: seq<OreAmount>, id: string): (n: nat)
    ensures n == 0 <==> forall i :: 0 <= i < |ores| ==> ores[i].itemId != id
    decreases |ores|
  {
    if ores == [] then 0
    else
      var init, last := ores[..|ores| - 1], ores[|ores| - 1];
      assert forall i :: 0 <= i < |init| ==> init[i] == ores[i];
      (if last.itemId == id then last.amount as nat else 0) + OreNeed(init, id)
  }

  /** No ore appears twice in the list, as in every recipe of the table. */
  predicate DistinctOres(ores: seq<OreAmount>) {
    forall i, j :: 0 <= i < j < |ores| ==> ores[i].itemId != ores[j].itemId
  }

  /** The outer ore loop of `doSmelt`: for ores with distinct ids, each ore's total falls
      by `min(amount * toSmelt, its total)`, provided its slots are positive; an item the
      recipe does not use keeps its total and stays positive. */
  lemma {:induction false} TakeOresTotal(inv: seq<Slot>, ores: seq<OreAmount>, toSmelt: int, id: string)
    requires DistinctOres(ores) && PositiveFor(inv, id) && toSmelt >= 0
    ensures Total(TakeOres(inv, ores, toSmelt), id) ==
      Total(inv, id) - Min(OreNeed(ores, id) * toSmelt, Total(inv, id))
    ensures OreNeed(ores, id) == 0 ==> PositiveFor(TakeOres(inv, ores, toSmelt), id)
    decreases |ores|
  {
    if ores != [] {
      var init, last := ores[..|ores| - 1], ores[|ores| - 1];
      OreNeedLast(ores, id);
      var prev := TakeOres(inv, init, toSmelt);
      var need := last.amount * toSmelt;
      assert TakeOres(inv, ores, toSmelt) == TakeFrom(prev, last.itemId, need);
      TakeOresTotal(inv, init, toSmelt, id);
      if last.itemId == id {
        TakeFromOwnTotal(prev, id, need);
      } else {
        TakeFromAtOther(prev, 0, last.itemId, need, id);
        if OreNeed(ores, id) == 0 {
          TakeFromKeepsOthers(prev, last.itemId, need, id);
        }
      }
    }
  }

  /** Splitting off the last of distinct ores: the rest stay distinct, and the need for
      `id` is the last ore's amount when it is `id`, else the rest's need. */
  lemma OreNeedLast(ores: seq<OreAmount>, id: string)
    requires DistinctOres(ores) && ores != []
    ensures DistinctOres(ores[..|ores| - 1])
    ensures ores[|ores| - 1].itemId == id ==>
      OreNeed(ores[..|ores| - 1], id) == 0 && OreNeed(ores, id) == ores[|ores| - 1].amount
    ensures ores[|ores| - 1].itemId != id ==> OreNeed(ores, id) == OreNeed(ores[..|ores| - 1], id)
  {
    var init, last := ores[..|ores| - 1], ores[|ores| - 1];
    assert forall i :: 0 <= i < |init| ==> init[i] == ores[i];
    if last.itemId == id {
      forall i | 0 <= i < |init| ensures init[i].itemId != id {
        assert ores[i].itemId != ores[|ores| - 1].itemId;
      }
    }
  }

  /** Taking from an ore with positive slots removes `min(remaining, total)` of it. */
  lemma TakeFromOwnTotal(inv: seq<Slot>, id: string, remaining: int)
    requires PositiveFor(inv, id) && remaining >= 0
    ensures Total(TakeFrom(inv, id, remaining), id) == Total(inv, id) - Min(remaining, Total(inv, id))
  {
    assert inv[0..] == inv;
    TakeFromAtTotal(inv, 0, id, remaining);
  }

  /** Every smelting recipe of the table lists each ore once, so `TakeOresTotal` applies
      to every smelt. */
  lemma RecipeOresDistinct(barId: string)
    requires barId in SmeltRecipes
    ensures DistinctOres(SmeltRecipes[barId].ores)
    ensures OreNeed(SmeltRecipes[barId].ores, barId) == 0
  {
    RecipeTableFacts();
  }

  /** Bar placement: add to the first slot of the bar, else append a new slot only while
      there are fewer than 48. */
  function PlaceBars(inv: seq<Slot>, barId: string, qty: nat): seq<Slot> {
    match FindSlot(inv, barId)
    case Some(k) => inv[k := Slot(barId, Effective(inv[k].quantity) + qty)]
    case None => if |inv| < InventoryCap then inv + [Slot(barId, qty)] else inv
  }

  /** The inventory after `doSmelt(barId, amount)`. */
  function SmeltResult(inv: seq<Slot>, barId: string, amount: int): seq<Slot> {
    if barId !in SmeltRecipes || amount <= 0 then inv
    else
      var recipe := SmeltRecipes[barId];
      var toSmelt := Min(amount, MaxSmeltable(inv, barId));
      if toSmelt <= 0 then inv
      else KeepPositive(PlaceBars(TakeOres(inv, recipe.ores, toSmelt), barId, toSmelt * Effective(recipe.barAmount)))
  }

  /** `doSmelt(barId, amount)`. */
  method DoSmelt(player: Player, barId: string, amount: int)
    modifies player`inventory
    ensures player.inventory == SmeltResult(old(player.inventory), barId, amount)
  {
    if barId !in SmeltRecipes || amount <= 0 {
      return;
    }
    var recipe := SmeltRecipes[barId];
    var max := CountMaxSmeltable(player, barId);
    var toSmelt := Min(amount, max);
    if toSmelt <= 0 {
      return;
    }
    var inv := TakeAllOres(player.inventory, recipe.ores, toSmelt);
    inv := AddBars(inv, barId, toSmelt * Effective(recipe.barAmount));
    player.inventory := KeepPositive(inv);
  }

  /** The outer loop of `doSmelt`, over the recipe's ores. */
  method TakeAllOres(start: seq<Slot>, ores: seq<OreAmount>, toSmelt: int) returns (inv: seq<Slot>)
    ensures inv == TakeOres(start, ores, toSmelt)
  {
    inv := start;
    var i := 0;
    while i < |ores|
      invariant 0 <= i <= |ores|
      invariant inv == TakeOres(start, ores[..i], toSmelt)
    {
      assert ores[..i + 1][..i] == ores[..i];
      inv := TakeOre(inv, ores[i].itemId, ores[i].amount * toSmelt);
      i := i + 1;
    }
    assert ores[..i] == ores;
  }

  /** The bar placement of `doSmelt`. */
  method AddBars(start: seq<Slot>, barId: string, barQty: nat) returns (inv: seq<Slot>)
    ensures inv == PlaceBars(start, barId, barQty)
  {
    inv := start;
    var barSlot := FindSlot(inv, barId);
    if barSlot.Some? {
      var k := barSlot.value;
      inv := inv[k := Slot(barId, Effective(inv[k].quantity) + barQty)];
    } else if |inv| < InventoryCap {
      inv := inv + [Slot(barId, barQty)];
    }
  }

  /** The inner loop of `doSmelt` for one ore. */
  method TakeOre(start: seq<Slot>, itemId: string, need: int) returns (inv: seq<Slot>)
    ensures inv == TakeFrom(start, itemId, need)
  {
    inv := start;
    var remaining := need;
    var k := 0;
    while k < |inv|
      invariant 0 <= k <= |inv| == |start|
      invariant TakeFromAt(inv, k, itemId, remaining) == TakeFrom(start, itemId, need)
    {
      if inv[k].itemId == itemId {
        var have := Effective(inv[k].quantity);
        var take := Min(remaining, have);
        inv := inv[k := Slot(itemId, have - take)];
        remaining := remaining - take;
        if remaining <= 0 {
          return;
        }
      }
      k := k + 1;
    }
  }

  /** Every slot of `id` from index `k` on holds a positive quantity. */
  predicate PositiveFrom(inv: seq<Slot>, k: nat, id: string) {
    forall j :: k <= j < |inv| && inv[j].itemId == id ==> inv[j].quantity > 0
  }

  /** Past an updated slot `k` the positive-quantity condition still holds. */
  lemma PositiveFromUpdate(inv: seq<Slot>, k: nat, s: Slot, id: string)
    requires k < |inv| && PositiveFrom(inv, k, id)
    ensures PositiveFrom(inv[k := s], k + 1, id)
  {
  }

  /** The total of a suffix is its first slot's amount plus the rest. */
  lemma TotalSuffix(inv: seq<Slot>, k: nat, id: string)
    requires k < |inv|
    ensures Total(inv[k..], id) == Amount(inv[k], id) + Total(inv[k + 1..], id)
  {
    assert inv[k..] == [inv[k]] + inv[k + 1..];
    TotalConcat([inv[k]], inv[k + 1..], id);
    TotalSingle(inv[k], id);
  }

  /** The pass from slot `k` removes exactly `min(remaining, total from k on)` of `id`, given
      that those slots are positive. */
  lemma {:induction false} TakeFromAtTotal(inv: seq<Slot>, k: nat, id: string, remaining: int)
    requires k <= |inv| && PositiveFrom(inv, k, id) && remaining >= 0
    ensures Total(TakeFromAt(inv, k, id, remaining), id) == Total(inv, id) - Min(remaining, Total(inv[k..], id))
    decreases |inv| - k
  {
    if k < |inv| {
      TotalSuffix(inv, k, id);
      if inv[k].itemId != id {
        assert TakeFromAt(inv, k, id, remaining) == TakeFromAt(inv, k + 1, id, remaining);
        TakeFromAtTotal(inv, k + 1, id, remaining);
      } else {
        var q := inv[k].quantity;
        assert q > 0 && Effective(q) == q;
        var take := Min(remaining, q);
        var next := inv[k := Slot(id, q - take)];
        TotalUpdate(inv, k, Slot(id, q - take), id);
        if remaining - take > 0 {
          assert take == q;
          assert TakeFromAt(inv, k, id, remaining) == TakeFromAt(next, k + 1, id, remaining - q);
          assert next[k + 1..] == inv[k + 1..];
          PositiveFromUpdate(inv, k, Slot(id, q - take), id);
          TakeFromAtTotal(next, k + 1, id, remaining - q);
        } else {
          assert take == remaining;
          assert TakeFromAt(inv, k, id, remaining) == next;
        }
      }
    }
  }

  /** The pass from slot `k` changes no other item's total. */
  lemma {:induction false} TakeFromAtOther(inv: seq<Slot>, k: nat, id: string, remaining: int, other: string)
    requires k <= |inv| && other != id
    ensures Total(TakeFromAt(inv, k, id, remaining), other) == Total(inv, other)
    decreases |inv| - k
  {
    if k < |inv| {
      if inv[k].itemId != id {
        TakeFromAtOther(inv, k + 1, id, remaining, other);
      } else {
        var have := Effective(inv[k].quantity);
        var take := Min(remaining, have);
        TotalUpdate(inv, k, Slot(id, have - take), other);
        if remaining - take > 0 {
          TakeFromAtOther(inv[k := Slot(id, have - take)], k + 1, id, remaining - take, other);
        }
      }
    }
  }

  /** Taking from the slots of `id` removes exactly `min(remaining, total)` of it, given
      that every slot of `id` holds a positive quantity; no other item's total changes. */
  lemma TakeFromTotal(inv: seq<Slot>, id: string, remaining: int, other: string)
    requires PositiveFor(inv, id) && remaining >= 0 && other != id
    ensures Total(TakeFrom(inv, id, remaining), id) == Total(inv, id) - Min(remaining, Total(inv, id))
    ensures Total(TakeFrom(inv, id, remaining), other) == Total(inv, other)
  {
    assert inv[0..] == inv;
    TakeFromAtTotal(inv, 0, id, remaining);
    TakeFromAtOther(inv, 0, id, remaining, other);
  }

  /** The pass from slot `k` keeps every slot's item, and leaves the slots before `k` and
      the slots of other items alone. */
  lemma {:induction false} TakeFromAtShape(inv: seq<Slot>, k: nat, id: string, remaining: int)
    requires k <= |inv|
    ensures var r := TakeFromAt(inv, k, id, remaining);
      && (forall j :: 0 <= j < |inv| ==> r[j].itemId == inv[j].itemId)
      && (forall j :: 0 <= j < |inv| && (j < k || inv[j].itemId != id) ==> r[j] == inv[j])
    decreases |inv| - k
  {
    if k < |inv| {
      if inv[k].itemId != id {
        TakeFromAtShape(inv, k + 1, id, remaining);
      } else {
        var have := Effective(inv[k].quantity);
        var take := Min(remaining, have);
        if remaining - take > 0 {
          TakeFromAtShape(inv[k := Slot(id, have - take)], k + 1, id, remaining - take);
        }
      }
    }
  }

  /** Taking one ore keeps every slot's item and leaves the slots of other items alone. */
  lemma TakeFromShape(inv: seq<Slot>, id: string, remaining: int)
    ensures forall j :: 0 <= j < |inv| ==> TakeFrom(inv, id, remaining)[j].itemId == inv[j].itemId
    ensures forall j :: 0 <= j < |inv| && inv[j].itemId != id ==> TakeFrom(inv, id, remaining)[j] == inv[j]
  {
    TakeFromAtShape(inv, 0, id, remaining);
  }

  /** Taking one ore leaves the slots of every other item as they were. */
  lemma TakeFromKeepsOthers(inv: seq<Slot>, id: string, remaining: int, other: string)
    requires PositiveFor(inv, other) && other != id
    ensures PositiveFor(TakeFrom(inv, id, remaining), other)
    ensures HasItem(TakeFrom(inv, id, remaining), other) <==> HasItem(inv, other)
  {
    var r := TakeFrom(inv, id, remaining);
    TakeFromShape(inv, id, remaining);
    if HasItem(inv, other) {
      var j :| 0 <= j < |inv| && inv[j].itemId == other;
      assert r[j].itemId == other;
    }
    if HasItem(r, other) {
      var j :| 0 <= j < |r| && r[j].itemId == other;
      assert inv[j].itemId == other;
    }
  }

  /** Placing bars adds `qty` to the bar's total when a slot exists or there is room, and
      changes no other total. */
  lemma PlaceBarsTotal(inv: seq<Slot>, barId: string, qty: nat, other: string)
    requires PositiveFor(inv, barId) && other != barId
    ensures Total(PlaceBars(inv, barId, qty), barId) ==
      Total(inv, barId) + (if HasItem(inv, barId) || |inv| < InventoryCap then qty else 0)
    ensures Total(PlaceBars(inv, barId, qty), other) == Total(inv, other)
  {
    match FindSlot(inv, barId)
    case Some(k) =>
      TotalUpdate(inv, k, Slot(barId, Effective(inv[k].quantity) + qty), barId);
      TotalUpdate(inv, k, Slot(barId, Effective(inv[k].quantity) + qty), other);
    case None =>
      TotalAppend(inv, Slot(barId, qty), barId);
      TotalAppend(inv, Slot(barId, qty), other);
  }

  /** `doSmelt` changes nothing for an unknown bar, a non-positive amount or ores that
      allow no bar; otherwise it smelts exactly `min(amount, countMaxSmeltable)`. */
  lemma SmeltNoOp(inv: seq<Slot>, barId: string, amount: int)
    requires barId !in SmeltRecipes || amount <= 0 || MaxSmeltable(inv, barId) == 0
    ensures SmeltResult(inv, barId, amount) == inv
  {
  }

  /** Smelting bronze: with `n = min(amount, countMaxSmeltable)` bars to make, exactly `n`
      copper ore and `n` tin ore leave the inventory and `n` bronze bars arrive (unless
      there is neither a bar slot nor room for one); every other item's total is kept,
      and so is the invariant that every slot holds a positive quantity. */
  lemma SmeltBronze(inv: seq<Slot>, amount: int, other: string)
    requires AllPositive(inv) && amount > 0
    requires other != "copper_ore" && other != "tin_ore" && other != "bronze_bar"
    ensures var n := Min(amount, MaxSmeltable(inv, "bronze_bar"));
      var r := SmeltResult(inv, "bronze_bar", amount);
      && AllPositive(r)
      && Total(r, "copper_ore") == Total(inv, "copper_ore") - n
      && Total(r, "tin_ore") == Total(inv, "tin_ore") - n
      && Total(r, "bronze_bar") ==
           Total(inv, "bronze_bar") + (if HasItem(inv, "bronze_bar") || |inv| < InventoryCap then n else 0)
      && Total(r, other) == Total(inv, other)
  {
    var bar := "bronze_bar";
    var n := Min(amount, MaxSmeltable(inv, bar));
    if n > 0 {
      MaxSmeltableBronze(inv);
      var inv2 := TakeOres(inv, SmeltRecipes[bar].ores, n);
      BronzeOresTaken(inv, n, bar);
      BronzeOresTaken(inv, n, other);
      PlaceBarsTotal(inv2, bar, n, "copper_ore");
      PlaceBarsTotal(inv2, bar, n, "tin_ore");
      PlaceBarsTotal(inv2, bar, n, other);
      var inv3 := PlaceBars(inv2, bar, n);
      assert SmeltRecipes[bar].barAmount == 1 && n * Effective(1) == n;
      assert SmeltResult(inv, bar, amount) == KeepPositive(inv3);
      TotalKeepPositive(inv3, "copper_ore");
      TotalKeepPositive(inv3, "tin_ore");
      TotalKeepPositive(inv3, bar);
      TotalKeepPositive(inv3, other);
    }
  }

  /** The ore-taking loops of a bronze smelt of `n` bars remove `n` of each ore and leave
      the slots of every other item as they were. */
  lemma BronzeOresTaken(inv: seq<Slot>, n: int, other: string)
    requires AllPositive(inv)
    requires 0 < n <= FirstQuantity(inv, "copper_ore") && n <= FirstQuantity(inv, "tin_ore")
    requires other != "copper_ore" && other != "tin_ore"
    ensures var r := TakeOres(inv, SmeltRecipes["bronze_bar"].ores, n);
      && |r| == |inv|
      && Total(r, "copper_ore") == Total(inv, "copper_ore") - n
      && Total(r, "tin_ore") == Total(inv, "tin_ore") - n
      && Total(r, other) == Total(inv, other)
      && PositiveFor(r, other)
      && (HasItem(r, other) <==> HasItem(inv, other))
  {
    BronzeTakeOres(inv, n);
    TwoOresTaken(inv, "copper_ore", "tin_ore", n, other);
  }

  /** The bronze recipe takes copper, then tin, `toSmelt` of each. */
  lemma BronzeTakeOres(inv: seq<Slot>, n: int)
    ensures TakeOres(inv, SmeltRecipes["bronze_bar"].ores, n) == TakeFrom(TakeFrom(inv, "copper_ore", n), "tin_ore", n)
  {
    var ores := SmeltRecipes["bronze_bar"].ores;
    assert ores == [OreAmount("copper_ore", 1), OreAmount("tin_ore", 1)];
    assert ores[..1] == [OreAmount("copper_ore", 1)] && ores[..1][..0] == [];
  }

  /** Taking `n` of one ore, then `n` of another, from first slots that hold at least `n`. */
  lemma TwoOresTaken(inv: seq<Slot>, cu: string, sn: string, n: int, other: string)
    requires cu != sn && other != cu && other != sn
    requires AllPositive(inv)
    requires 0 < n <= FirstQuantity(inv, cu) && n <= FirstQuantity(inv, sn)
    ensures var r := TakeFrom(TakeFrom(inv, cu, n), sn, n);
      && |r| == |inv|
      && Total(r, cu) == Total(inv, cu) - n
      && Total(r, sn) == Total(inv, sn) - n
      && Total(r, other) == Total(inv, other)
      && PositiveFor(r, other)
      && (HasItem(r, other) <==> HasItem(inv, other))
  {
    AllPositiveFor(inv, cu);
    AllPositiveFor(inv, sn);
    AllPositiveFor(inv, other);
    FirstQuantityBelowTotal(inv, cu);
    FirstQuantityBelowTotal(inv, sn);
    var inv1 := TakeFrom(inv, cu, n);
    TakeFromTotal(inv, cu, n, sn);
    TakeFromTotal(inv, cu, n, other);
    TakeFromKeepsOthers(inv, cu, n, sn);
    TakeFromKeepsOthers(inv, cu, n, other);
    TakeFromTotal(inv1, sn, n, cu);
    TakeFromTotal(inv1, sn, n, other);
    TakeFromKeepsOthers(inv1, sn, n, other);
  }

  // ---------------------------------------------------------------- forging

  /** `countBars(barId)`: the first slot's quantity (default 1), 0 when there is none; under
      the positive-quantity invariant it never exceeds the bar's total. */
  function CountBars(inv: seq<Slot>, barId: string): (n: nat)
    ensures n == 0 <==> !HasItem(inv, barId)
    ensures PositiveFor(inv, barId) ==> n <= Total(inv, barId)
  {
    if PositiveFor(inv, barId) then FirstQuantityBelowTotal(inv, barId); FirstQuantity(inv, barId)
    else FirstQuantity(inv, barId)
  }

  /** `getSmithingLevel()`: the smithing stat's level, with 1 standing in for a missing stat
      or a zero level. */
  function SmithingLevel(stats: map<string, Stat>): (l: int)
    ensures l != 0
    ensures "smithing" in stats && stats["smithing"].level != 0 ==> l == stats["smithing"].level
    ensures "smithing" !in stats ==> l == 1
  {
    if "smithing" in stats then (if stats["smithing"].level != 0 then stats["smithing"].level else 1)
    else 1
  }

  /** A fresh player smiths at level 1. */
  lemma FreshSmithingLevel()
    ensures SmithingLevel(InitialStats()) == 1
  {
    InitialStatsFacts();
    assert "smithing" in StatIds;
  }

  /** The anvil's `canMake`: enough bars and a high enough smithing level. */
  predicate CanMake(barCount: int, smithingLevel: int, rec: AnvilRecipe) {
    barCount >= rec.bars && smithingLevel >= rec.smithingLevel
  }

  /** Spending bars from slot `k`, `left` remaining: an emptied slot is spliced out,
      otherwise its quantity becomes `left`. */
  function SpendBars(inv: seq<Slot>, k: nat, left: int): (r: seq<Slot>)
    requires k < |inv|
  {
    if left <= 0 then inv[..k] + inv[k + 1..] else inv[k := Slot(inv[k].itemId, left)]
  }

  /** The in-place edits of `doForge` before its final filter: `None` when it returns
      early (no bar slot, or its first slot holds fewer than `barCost`), otherwise the
      inventory with the bars spent and, if there is room, the item appended. */
  function ForgeEdits(inv: seq<Slot>, itemId: string, barId: string, barCost: int): Option<seq<Slot>> {
    match FindSlot(inv, barId)
    case None => None
    case Some(k) =>
      if Effective(inv[k].quantity) < barCost then None
      else Some(AppendIfRoom(SpendBars(inv, k, Effective(inv[k].quantity) - barCost), Slot(itemId, 1)))
  }

  /** The inventory after `doForge(itemId, barId, barCost)`. */
  function ForgeResult(inv: seq<Slot>, itemId: string, barId: string, barCost: int): seq<Slot> {
    match ForgeEdits(inv, itemId, barId, barCost)
    case None => inv
    case Some(edited) => KeepPositive(edited)
  }

  /** `doForge(itemId, barId, barCost)`. */
  method DoForge(player: Player, itemId: string, barId: string, barCost: int)
    modifies player`inventory
    ensures player.inventory == ForgeResult(old(player.inventory), itemId, barId, barCost)
  {
    var inv := player.inventory;
    var barSlot := FindSlot(inv, barId);
    if barSlot.None? || Effective(inv[barSlot.value].quantity) < barCost {
      assert ForgeEdits(inv, itemId, barId, barCost) == None;
      return;
    }
    ghost var start := inv;
    var idx := barSlot.value;
    inv := SpendSlot(inv, idx, Effective(inv[idx].quantity) - barCost);
    if |inv| < InventoryCap {
      inv := inv + [Slot(itemId, 1)];
    }
    assert ForgeEdits(start, itemId, barId, barCost) == Some(inv);
    player.inventory := KeepPositive(inv);
  }

  /** The decrement and splice of `doForge`: slot `k` keeps `left` bars, or is removed
      when none are left. */
  method SpendSlot(start: seq<Slot>, k: nat, left: int) returns (inv: seq<Slot>)
    requires k < |start|
    ensures inv == SpendBars(start, k, left)
  {
    inv := start;
    if left <= 0 {
      inv := inv[..k] + inv[k + 1..];
    } else {
      inv := inv[k := Slot(inv[k].itemId, left)];
    }
  }

  /** Spending lowers the slot's item total by `quantity - left` and keeps the others. */
  lemma SpendBarsTotal(inv: seq<Slot>, k: nat, left: int, id: string)
    requires k < |inv| && 0 <= left
    ensures |SpendBars(inv, k, left)| == |inv| - (if left <= 0 then 1 else 0)
    ensures Total(SpendBars(inv, k, left), id) ==
      Total(inv, id) - Amount(inv[k], id) + (if inv[k].itemId == id then left else 0)
  {
    if left <= 0 {
      TotalRemove(inv, k, id);
    } else {
      TotalUpdate(inv, k, Slot(inv[k].itemId, left), id);
    }
  }

  /** Forging is a no-op without a bar slot or when its first slot holds too few bars. */
  lemma ForgeNoOp(inv: seq<Slot>, itemId: string, barId: string, barCost: int)
    requires !HasItem(inv, barId) || CountBars(inv, barId) < barCost
    ensures ForgeResult(inv, itemId, barId, barCost) == inv
  {
  }

  /** A forge with enough bars in the first slot removes exactly `barCost` bars, adds one
      item when there is room (counting the slot freed by an emptied bar slot), changes no
      other total and keeps every slot positive. */
  lemma ForgeTotals(inv: seq<Slot>, itemId: string, barId: string, barCost: int, other: string)
    requires AllPositive(inv) && itemId != barId && barCost >= 1
    requires CountBars(inv, barId) >= barCost
    requires other != itemId && other != barId
    ensures var r := ForgeResult(inv, itemId, barId, barCost);
      var room := |inv| - (if CountBars(inv, barId) == barCost then 1 else 0) < InventoryCap;
      && AllPositive(r)
      && Total(r, barId) == Total(inv, barId) - barCost
      && Total(r, itemId) == Total(inv, itemId) + (if room then 1 else 0)
      && Total(r, other) == Total(inv, other)
  {
    var k :| FindSlot(inv, barId) == Some(k);
    assert CountBars(inv, barId) == inv[k].quantity;
    ForgeTotal(inv, k, itemId, barId, barCost, barId);
    ForgeTotal(inv, k, itemId, barId, barCost, itemId);
    ForgeTotal(inv, k, itemId, barId, barCost, other);
  }

  /** The total of any one item `id` after a successful forge from the first bar slot `k`. */
  lemma ForgeTotal(inv: seq<Slot>, k: nat, itemId: string, barId: string, barCost: int, id: string)
    requires AllPositive(inv) && itemId != barId
    requires FindSlot(inv, barId) == Some(k) && inv[k].quantity >= barCost
    ensures var room := |inv| - (if inv[k].quantity == barCost then 1 else 0) < InventoryCap;
      Total(ForgeResult(inv, itemId, barId, barCost), id) ==
        Total(inv, id) - (if id == barId then barCost else 0) + (if id == itemId && room then 1 else 0)
  {
    var q := inv[k].quantity;
    var left := q - barCost;
    assert Effective(q) == q;
    var spent := SpendBars(inv, k, left);
    var edited := AppendIfRoom(spent, Slot(itemId, 1));
    assert ForgeEdits(inv, itemId, barId, barCost) == Some(edited);
    SpendBarsTotal(inv, k, left, id);
    TotalAppendIfRoom(spent, Slot(itemId, 1), id);
    TotalKeepPositive(edited, id);
  }

  /** Every anvil recipe the menu shows as makeable forges successfully: its bars leave
      the inventory. */
  lemma CanMakeForges(inv: seq<Slot>, smithingLevel: int, i: nat)
    requires AllPositive(inv) && i < |AnvilRecipes["bronze_bar"]|
    requires CanMake(CountBars(inv, "bronze_bar"), smithingLevel, AnvilRecipes["bronze_bar"][i])
    ensures var rec := AnvilRecipes["bronze_bar"][i];
      Total(ForgeResult(inv, rec.itemId, "bronze_bar", rec.bars), "bronze_bar") ==
      Total(inv, "bronze_bar") - rec.bars
  {
    RecipeTableFacts();
    var rec := AnvilRecipes["bronze_bar"][i];
    ForgeTotals(inv, rec.itemId, "bronze_bar", rec.bars, "copper_ore");
  }

  // ---------------------------------------------------------------- smelt-X input

  /** The "Smelt X" amount: the parsed input (0 when it does not parse or is 0), clamped
      to [0, maxSmeltable]. */
  function ClampSmeltAmount(maxSmeltable: nat, input: Option<int>): (n: int)
    ensures 0 <= n <= maxSmeltable
    ensures input.Some? && 0 <= input.value <= maxSmeltable ==> n == input.value
    ensures input.Some? && input.value > maxSmeltable ==> n == maxSmeltable
    ensures input.None? || input.value <= 0 ==> n == 0
  {
    var parsed := if input.Some? then input.value else 0;
    Max(0, Min(maxSmeltable, parsed))
  }

  /** A clamped bronze amount is smelted in full: `doSmelt` takes exactly `n` copper and
      `n` tin ore and adds `n` bars when a bar slot exists or there is room. */
  lemma ClampedAmountSmeltedInFull(inv: seq<Slot>, input: Option<int>)
    requires AllPositive(inv)
    ensures var n := ClampSmeltAmount(MaxSmeltable(inv, "bronze_bar"), input);
      var r := SmeltResult(inv, "bronze_bar", n);
      && Total(r, "copper_ore") == Total(inv, "copper_ore") - n
      && Total(r, "tin_ore") == Total(inv, "tin_ore") - n
      && Total(r, "bronze_bar") ==
           Total(inv, "bronze_bar") + (if HasItem(inv, "bronze_bar") || |inv| < InventoryCap then n else 0)
  {
    var n := ClampSmeltAmount(MaxSmeltable(inv, "bronze_bar"), input);
    if n > 0 {
      assert Min(n, MaxSmeltable(inv, "bronze_bar")) == n;
      SmeltBronze(inv, n, "bones");
    }
  }
}
