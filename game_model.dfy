/**
 * `GameModel`: the player's health, theme flag, top-level state and inventory, updated
 * in place by its methods.
 */
module PlayerModel {
  import opened Wrappers
  import opened Items
  import opened Inventory
  import JavaInt

  const InitialHealth: int := 100

  /** `Math.max(0, Math.min(100, v))`. */
  function Clamp(v: int): (r: int)
    ensures 0 <= r <= 100
    ensures 0 <= v <= 100 ==> r == v
    ensures v < 0 ==> r == 0
    ensures v > 100 ==> r == 100
  {
    Max(0, Min(100, v))
  }

  function Min(a: int, b: int): int { if a <= b then a else b }

  function Max(a: int, b: int): int { if a >= b then a else b }

  /** Health after `health += amount` on Java ints followed by the clamp. */
  function Healed(health: int, amount: int): (r: int)
    ensures 0 <= r <= 100
    ensures JavaInt.IsInt(health + amount) ==> r == Clamp(health + amount)
  {
    Clamp(JavaInt.Add(health, amount))
  }

  class GameModel {
    var isDarkMode: bool
    var currentState: GameState
    var health: int
    var inventory: Inv
    /** The order in which the inventory `HashMap` visits its categories. */
    const order: seq<ItemType>

    ghost predicate Valid()
      reads this
    {
      0 <= health <= 100 && Inventory.Valid(inventory) && IsCategoryOrder(order)
    }

    /**
     * The constructor: one empty list per category, then one `addItem` call per item of
     * the inventory file, in file order (`initialItems` is what the file loader returned).
     */
    constructor (initialItems: seq<InventoryItem>, order: seq<ItemType>)
      requires IsCategoryOrder(order)
      ensures Valid() && this.order == order
      ensures !isDarkMode && currentState == Title && health == InitialHealth
      ensures inventory == AddAll(EmptyInventory(), initialItems)
    {
      this.order := order;
      isDarkMode := false;
      currentState := Title;
      health := InitialHealth;
      var types := [Weapon, Consumable, KeyItem];
      var inv: Inv := map[];
      for k := 0 to |types|
        invariant forall j :: 0 <= j < k ==> types[j] in inv && inv[types[j]] == []
        invariant forall t :: t in inv ==> t in types[..k]
      {
        inv := inv[types[k] := []];
      }
      assert inv == EmptyInventory() by {
        assert types[0] == Weapon && types[1] == Consumable && types[2] == KeyItem;
        forall t: ItemType ensures t in inv && inv[t] == [] {
          EveryKind(t);
        }
      }
      inventory := inv;
      new;
      for i := 0 to |initialItems|
        invariant Valid()
        invariant !isDarkMode && currentState == Title && health == InitialHealth
        invariant inventory == AddAll(EmptyInventory(), initialItems[..i])
      {
        AddAllPrefix(EmptyInventory(), initialItems, i);
        var _ := AddItem(initialItems[i]);
      }
      assert initialItems[..|initialItems|] == initialItems;
    }

    /** Negates the theme flag; nothing else changes. */
    method ToggleDarkMode()
      requires Valid()
      modifies this
      ensures Valid()
      ensures isDarkMode == !old(isDarkMode)
      ensures currentState == old(currentState) && health == old(health) && inventory == old(inventory)
    {
      isDarkMode := !isDarkMode;
    }

    method SetCurrentState(state: GameState)
      requires Valid()
      modifies this
      ensures Valid()
      ensures currentState == state
      ensures isDarkMode == old(isDarkMode) && health == old(health) && inventory == old(inventory)
    {
      currentState := state;
    }

    /** Stores the value clamped to 0..100. */
    method SetHealth(value: int)
      requires Valid()
      modifies this
      ensures Valid()
      ensures health == Clamp(value)
      ensures isDarkMode == old(isDarkMode) && currentState == old(currentState) && inventory == old(inventory)
    {
      health := Max(0, Min(100, value));
    }

    /** Adds the signed amount (a negative amount is damage), then clamps. */
    method SubtractHealth(amount: int)
      requires Valid()
      modifies this
      ensures Valid()
      ensures health == Healed(old(health), amount)
      ensures isDarkMode == old(isDarkMode) && currentState == old(currentState) && inventory == old(inventory)
    {
      health := JavaInt.Add(health, amount);
      health := Max(0, Min(100, health));
    }

    /** The same computation as `SubtractHealth`. */
    method AddHealth(amount: int)
      requires Valid()
      modifies this
      ensures Valid()
      ensures health == Healed(old(health), amount)
      ensures isDarkMode == old(isDarkMode) && currentState == old(currentState) && inventory == old(inventory)
    {
      health := JavaInt.Add(health, amount);
      health := Max(0, Min(100, health));
    }

    /**
     * Appends the item to its category when that category is below its capacity, and
     * reports whether it did; see `TryAdd` for what that means for each category.
     */
    method AddItem(item: InventoryItem) returns (added: bool)
      requires Valid()
      modifies this
      ensures Valid()
      ensures (inventory, added) == TryAdd(old(inventory), item)
      ensures isDarkMode == old(isDarkMode) && currentState == old(currentState) && health == old(health)
    {
      // The `putIfAbsent` never adds a list: every category has one while `Valid()` holds.
      assert item.kind in inventory;
      var items := inventory[item.kind];
      var limit := match item.kind
        case Weapon => MaxWeapons
        case Consumable => MaxConsumables
        case KeyItem => MaxKeyItems;
      if |items| >= limit {
        return false;
      }
      inventory := inventory[item.kind := items + [item]];
      return true;
    }

    /**
     * Visits the category lists in map order and removes every item with this name from
     * the first list that has one.
     */
    method RemoveItem(name: string) returns (removed: bool)
      requires Valid()
      modifies this
      ensures Valid()
      ensures (inventory, removed) == RemoveByName(old(inventory), order, name)
      ensures isDarkMode == old(isDarkMode) && currentState == old(currentState) && health == old(health)
    {
      RemoveByNameValid(inventory, order, name);
      var k := 0;
      while k < |order|
        invariant 0 <= k <= |order|
        invariant inventory == old(inventory)
        invariant forall j :: 0 <= j < k ==> !(order[j] in inventory && HasNamed(inventory[order[j]], name))
      {
        var t := order[k];
        if t in inventory {
          var kept := WithoutNamed(inventory[t], name);
          if |kept| < |inventory[t]| {
            assert FirstNamedAt(inventory, order, name, k);
            RemoveByNameAt(inventory, order, name, k);
            inventory := inventory[t := kept];
            return true;
          }
        }
        k := k + 1;
      }
      return false;
    }

    /**
     * On a consumable: heals by its restore value, then removes one occurrence of it from
     * the first category list (in map order) that holds it, and reports true even when no
     * list held it. On an absent item or any other kind: false, and nothing changes.
     */
    method ConsumeItem(item: Option<InventoryItem>) returns (consumed: bool)
      requires Valid()
      modifies this
      ensures Valid()
      ensures consumed <==> item.Some? && IsConsumable(item.value)
      ensures !consumed ==> health == old(health) && inventory == old(inventory)
      ensures consumed ==> health == Healed(old(health), item.value.healthRestore) &&
                           inventory == RemoveOne(old(inventory), order, item.value)
      ensures isDarkMode == old(isDarkMode) && currentState == old(currentState)
    {
      if item.Some? && IsConsumable(item.value) {
        var x := item.value;
        AddHealth(x.healthRestore);
        RemoveOneValid(inventory, order, x);
        var k := 0;
        while k < |order|
          invariant 0 <= k <= |order|
          invariant inventory == old(inventory)
          invariant forall j :: 0 <= j < k ==> !(order[j] in inventory && x in inventory[order[j]])
        {
          var t := order[k];
          if t in inventory && x in inventory[t] {
            assert FirstHoldingAt(inventory, order, x, k);
            inventory := inventory[t := RemoveFirst(inventory[t], x)];
            break;
          }
          k := k + 1;
        }
        return true;
      }
      return false;
    }

    /** Removes the first occurrence of the item from its own category's list. */
    method RemoveFromInventory(item: InventoryItem)
      requires Valid()
      modifies this
      ensures Valid()
      ensures inventory == RemoveFromOwn(old(inventory), item)
      ensures isDarkMode == old(isDarkMode) && currentState == old(currentState) && health == old(health)
    {
      var items := inventory[item.kind];
      inventory := inventory[item.kind := RemoveFirst(items, item)];
    }

    /** `clearInventory`, assumed to empty every category list. */
    method ClearInventory()
      requires Valid()
      modifies this
      ensures Valid()
      ensures inventory == Cleared(old(inventory))
      ensures isDarkMode == old(isDarkMode) && currentState == old(currentState) && health == old(health)
    {
      inventory := EmptyInventory();
    }

    /** `resetHealth`, assumed to restore the initial health. */
    method ResetHealth()
      requires Valid()
      modifies this
      ensures Valid()
      ensures health == InitialHealth
      ensures isDarkMode == old(isDarkMode) && currentState == old(currentState) && inventory == old(inventory)
    {
      health := InitialHealth;
    }

    /**
     * `reloadInventory`, assumed to empty every category list and then add the items of the
     * inventory file (`items`) one `addItem` call at a time.
     */
    method ReloadInventory(items: seq<InventoryItem>)
      requires Valid()
      modifies this
      ensures Valid()
      ensures inventory == AddAll(EmptyInventory(), items)
      ensures isDarkMode == old(isDarkMode) && currentState == old(currentState) && health == old(health)
    {
      ClearInventory();
      for i := 0 to |items|
        invariant Valid()
        invariant inventory == AddAll(EmptyInventory(), items[..i])
        invariant isDarkMode == old(isDarkMode) && currentState == old(currentState) && health == old(health)
      {
        AddAllPrefix(EmptyInventory(), items, i);
        var _ := AddItem(items[i]);
      }
      assert items[..|items|] == items;
    }

    /** `decreaseDurability` called on the weapon object at index `i` of the weapon list. */
    method DecreaseWeaponDurability(i: nat, amount: int)
      requires Valid()
      requires i < |Get(inventory, Weapon)|
      modifies this
      ensures Valid()
      ensures inventory == WearWeapon(old(inventory), i, amount)
      ensures isDarkMode == old(isDarkMode) && currentState == old(currentState) && health == old(health)
    {
      var ws := inventory[Weapon];
      inventory := inventory[Weapon := ws[i := DecreaseDurability(ws[i], amount)]];
    }
  }
}
