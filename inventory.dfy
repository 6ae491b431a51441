/** Facts about inventories (sequences of slots) shared by the scenes: how totals and the
    positive-quantity invariant behave under the edits the scenes make. */
module InventoryFacts {
  import opened Common
  import opened Items
  import opened PlayerState

  /** Every slot holding `id` has a positive quantity. */
  predicate PositiveFor(inv: seq<Slot>, id: string) {
    forall j :: 0 <= j < |inv| && inv[j].itemId == id ==> inv[j].quantity > 0
  }

  lemma AllPositiveFor(inv: seq<Slot>, id: string)
    requires AllPositive(inv)
    ensures PositiveFor(inv, id)
  {
  }

  /** Quantity of `id` contributed by one slot. */
  function Amount(s: Slot, id: string): nat {
    if s.itemId == id then s.quantity else 0
  }

  lemma {:induction false} TotalConcat(a: seq<Slot>, b: seq<Slot>, id: string)
    ensures Total(a + b, id) == Total(a, id) + Total(b, id)
    decreases |b|
  {
    if b == [] {
      assert a + b == a;
    } else {
      assert (a + b)[..|a + b| - 1] == a + b[..|b| - 1];
      TotalConcat(a, b[..|b| - 1], id);
    }
  }

  lemma TotalSingle(s: Slot, id: string)
    ensures Total([s], id) == Amount(s, id)
  {
    assert [s][..0] == [];
  }

  /** Replacing one slot changes the total by the difference of the two slots. */
  lemma TotalUpdate(inv: seq<Slot>, k: nat, s: Slot, id: string)
    requires k < |inv|
    ensures Total(inv[k := s], id) == Total(inv, id) - Amount(inv[k], id) + Amount(s, id)
  {
    assert inv == inv[..k] + [inv[k]] + inv[k + 1..];
    assert inv[k := s] == inv[..k] + [s] + inv[k + 1..];
    TotalConcat(inv[..k] + [inv[k]], inv[k + 1..], id);
    TotalConcat(inv[..k], [inv[k]], id);
    TotalConcat(inv[..k] + [s], inv[k + 1..], id);
    TotalConcat(inv[..k], [s], id);
    TotalSingle(inv[k], id);
    TotalSingle(s, id);
  }

  /** Removing one slot lowers the total by that slot's amount. */
  lemma TotalRemove(inv: seq<Slot>, k: nat, id: string)
    requires k < |inv|
    ensures Total(inv[..k] + inv[k + 1..], id) == Total(inv, id) - Amount(inv[k], id)
  {
    assert inv == inv[..k] + [inv[k]] + inv[k + 1..];
    TotalConcat(inv[..k] + [inv[k]], inv[k + 1..], id);
    TotalConcat(inv[..k], [inv[k]], id);
    TotalConcat(inv[..k], inv[k + 1..], id);
    TotalSingle(inv[k], id);
  }

  lemma TotalAppend(inv: seq<Slot>, s: Slot, id: string)
    ensures Total(inv + [s], id) == Total(inv, id) + Amount(s, id)
  {
    assert (inv + [s])[..|inv|] == inv;
  }

  /** `if (inv.length < 48) inv.push(s)`: the append every scene guards by capacity. */
  function AppendIfRoom(inv: seq<Slot>, s: Slot): (r: seq<Slot>)
    ensures |inv| < InventoryCap ==> r == inv + [s]
    ensures |inv| >= InventoryCap ==> r == inv
  {
    if |inv| < InventoryCap then inv + [s] else inv
  }

  /** A guarded append adds the slot's amount exactly when there is room. */
  lemma TotalAppendIfRoom(inv: seq<Slot>, s: Slot, id: string)
    ensures Total(AppendIfRoom(inv, s), id) == Total(inv, id) + (if |inv| < InventoryCap then Amount(s, id) else 0)
  {
    TotalAppend(inv, s, id);
  }

  /** Dropping empty slots changes no total. */
  lemma {:induction false} TotalKeepPositive(inv: seq<Slot>, id: string)
    ensures Total(KeepPositive(inv), id) == Total(inv, id)
    decreases |inv|
  {
    if inv != [] {
      var init, last := inv[..|inv| - 1], inv[|inv| - 1];
      TotalKeepPositive(init, id);
      TotalConcat(KeepPositive(init), if last.quantity > 0 then [last] else [], id);
      TotalSingle(last, id);
    }
  }

  /** Dropping empty slots keeps an inventory that has none unchanged. */
  lemma {:induction false} KeepPositiveOfPositive(inv: seq<Slot>)
    requires AllPositive(inv)
    ensures KeepPositive(inv) == inv
    decreases |inv|
  {
    if inv != [] {
      KeepPositiveOfPositive(inv[..|inv| - 1]);
    }
  }

  /** Under the positive-quantity invariant the first slot's quantity is part of the total. */
  lemma FirstQuantityBelowTotal(inv: seq<Slot>, id: string)
    requires PositiveFor(inv, id)
    ensures FirstQuantity(inv, id) <= Total(inv, id)
    ensures FirstQuantity(inv, id) > 0 <==> HasItem(inv, id)
  {
    match FindSlot(inv, id)
    case None =>
    case Some(k) =>
      TotalUpdate(inv, k, Slot(id, 0), id);
  }

  /** A slot holding `id` contributes at least that slot's quantity to the total. */
  lemma TotalPositive(inv: seq<Slot>, id: string)
    requires PositiveFor(inv, id)
    ensures Total(inv, id) > 0 <==> HasItem(inv, id)
  {
    FirstQuantityBelowTotal(inv, id);
    if !HasItem(inv, id) {
      TotalNone(inv, id);
    }
  }

  lemma {:induction false} TotalNone(inv: seq<Slot>, id: string)
    requires !HasItem(inv, id)
    ensures Total(inv, id) == 0
    decreases |inv|
  {
    if inv != [] {
      var init := inv[..|inv| - 1];
      assert !HasItem(init, id) by {
        forall j | 0 <= j < |init| ensures init[j].itemId != id {
          assert init[j] == inv[j];
        }
      }
      TotalNone(init, id);
    }
  }

  /** Adding `quantity` of `itemId` as loot pickup and mining do: a stackable item joins
      the first slot holding it; otherwise it takes a new slot if fewer than 48 are used,
      and is lost if not. */
  function AddItem(inv: seq<Slot>, itemId: string, quantity: nat): seq<Slot> {
    AddItemAs(inv, itemId, quantity, IsStackable(itemId))
  }

  /** `AddItem` for an item whose stackability is `stackable`. */
  function AddItemAs(inv: seq<Slot>, itemId: string, quantity: nat, stackable: bool): seq<Slot> {
    if stackable && FindSlot(inv, itemId).Some? then
      var k := FindSlot(inv, itemId).value;
      inv[k := Slot(itemId, Effective(inv[k].quantity) + quantity)]
    else AppendIfRoom(inv, Slot(itemId, quantity))
  }

  /** Whether the added item is stacked onto an existing slot. */
  predicate Stacks(inv: seq<Slot>, itemId: string) {
    IsStackable(itemId) && HasItem(inv, itemId)
  }

  /** Adding puts `quantity` to the item's total when it stacks or there is room
      (and nothing otherwise), leaves every other item's total alone, and uses a new
      slot exactly when it neither stacks nor finds the inventory full. */
  lemma AddItemTotals(inv: seq<Slot>, itemId: string, quantity: nat, id: string)
    requires PositiveFor(inv, itemId)
    ensures var r := AddItem(inv, itemId, quantity);
      && Total(r, id) == Total(inv, id) +
           (if id == itemId && (Stacks(inv, itemId) || |inv| < InventoryCap) then quantity else 0)
      && |r| == |inv| + (if Stacks(inv, itemId) || |inv| >= InventoryCap then 0 else 1)
  {
    AddItemAsTotals(inv, itemId, quantity, IsStackable(itemId), id);
  }

  lemma AddItemAsTotals(inv: seq<Slot>, itemId: string, quantity: nat, stackable: bool, id: string)
    requires PositiveFor(inv, itemId)
    ensures var r := AddItemAs(inv, itemId, quantity, stackable);
      var stacks := stackable && HasItem(inv, itemId);
      && Total(r, id) == Total(inv, id) +
           (if id == itemId && (stacks || |inv| < InventoryCap) then quantity else 0)
      && |r| == |inv| + (if stacks || |inv| >= InventoryCap then 0 else 1)
  {
    if stackable && FindSlot(inv, itemId).Some? {
      var k := FindSlot(inv, itemId).value;
      TotalUpdate(inv, k, Slot(itemId, Effective(inv[k].quantity) + quantity), id);
    } else {
      TotalAppendIfRoom(inv, Slot(itemId, quantity), id);
    }
  }

  /** A positive addition keeps every slot positive. */
  lemma AddItemKeepsPositive(inv: seq<Slot>, itemId: string, quantity: nat)
    requires AllPositive(inv) && quantity > 0
    ensures AllPositive(AddItem(inv, itemId, quantity))
  {
  }

  /** The quirk of `(slot.quantity || 1) + quantity`: a stack stored at quantity 0 counts
      as one item before the addition. */
  lemma AddItemOntoEmptyStack(inv: seq<Slot>, itemId: string, quantity: nat, k: nat)
    requires IsStackable(itemId) && FindSlot(inv, itemId) == Some(k) && inv[k].quantity == 0
    ensures Total(AddItem(inv, itemId, quantity), itemId) == Total(inv, itemId) + 1 + quantity
  {
    AddAsOntoEmptyStack(inv, itemId, quantity, k);
  }

  lemma AddAsOntoEmptyStack(inv: seq<Slot>, itemId: string, quantity: nat, k: nat)
    requires FindSlot(inv, itemId) == Some(k) && inv[k].quantity == 0
    ensures Total(AddItemAs(inv, itemId, quantity, true), itemId) == Total(inv, itemId) + 1 + quantity
  {
    TotalUpdate(inv, k, Slot(itemId, 1 + quantity), itemId);
  }

  /** Stacking a positive amount onto a held item keeps that item held and positive. */
  lemma AddItemStacksPositive(inv: seq<Slot>, itemId: string, quantity: nat)
    requires Stacks(inv, itemId) && PositiveFor(inv, itemId) && quantity > 0
    ensures PositiveFor(AddItem(inv, itemId, quantity), itemId)
    ensures HasItem(AddItem(inv, itemId, quantity), itemId)
  {
    StackOnto(inv, itemId, quantity, itemId);
  }

  /** Stacking onto a held item: it stays held and positive, no slot is added, and only
      its total grows, by `quantity`. */
  lemma StackOnto(inv: seq<Slot>, itemId: string, quantity: nat, id: string)
    requires HasItem(inv, itemId) && PositiveFor(inv, itemId) && quantity > 0
    ensures var r := AddItemAs(inv, itemId, quantity, true);
      && PositiveFor(r, itemId) && HasItem(r, itemId) && |r| == |inv|
      && Total(r, id) == Total(inv, id) + (if id == itemId then quantity else 0)
  {
    StackOntoTotal(inv, itemId, quantity, id);
    var k := FindSlot(inv, itemId).value;
    assert AddItemAs(inv, itemId, quantity, true)[k].itemId == itemId;
  }

  /** The totals half of `StackOnto`. */
  lemma StackOntoTotal(inv: seq<Slot>, itemId: string, quantity: nat, id: string)
    requires HasItem(inv, itemId) && PositiveFor(inv, itemId)
    ensures var r := AddItemAs(inv, itemId, quantity, true);
      |r| == |inv| && Total(r, id) == Total(inv, id) + (if id == itemId then quantity else 0)
  {
    AddItemAsTotals(inv, itemId, quantity, true, id);
  }

  /** Adding one item never changes another item's total. */
  lemma AddItemAsOther(inv: seq<Slot>, itemId: string, quantity: nat, stackable: bool, id: string)
    requires id != itemId
    ensures Total(AddItemAs(inv, itemId, quantity, stackable), id) == Total(inv, id)
  {
    if stackable && FindSlot(inv, itemId).Some? {
      var k := FindSlot(inv, itemId).value;
      TotalUpdate(inv, k, Slot(itemId, Effective(inv[k].quantity) + quantity), id);
    } else {
      TotalAppendIfRoom(inv, Slot(itemId, quantity), id);
    }
  }
}
