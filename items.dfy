/**
 * The item shape the game code uses (name, category, health restore, durability, power),
 * the item categories with their capacities, and the top-level game states.
 */
module Items {

  /** ItemType: the three inventory categories. */
  datatype ItemType = Weapon | Consumable | KeyItem

  /** GameState: the states `MainController.updateView` distinguishes, plus ENDING. */
  datatype GameState = Title | Instructions | FirstChoice | Ending

  /** An inventory item, held as a value. */
  datatype InventoryItem = InventoryItem(
    name: string,
    kind: ItemType,
    healthRestore: int,
    durability: int,
    power: int)

  const MaxWeapons: nat := 2
  const MaxConsumables: nat := 3
  const MaxKeyItems: nat := 1

  /** The per-category capacity table used by `GameModel.addItem`. */
  function Capacity(t: ItemType): (n: nat)
    ensures n >= 1
    ensures t == Weapon ==> n == 2
    ensures t == Consumable ==> n == 3
    ensures t == KeyItem ==> n == 1
  {
    match t
    case Weapon => MaxWeapons
    case Consumable => MaxConsumables
    case KeyItem => MaxKeyItems
  }

  predicate IsWeapon(item: InventoryItem) { item.kind == Weapon }

  predicate IsConsumable(item: InventoryItem) { item.kind == Consumable }

  /**
   * `decreaseDurability(amount)`, whose definition is not part of this model: assumed to
   * lower the durability by exactly `amount` and to change nothing else.
   */
  function DecreaseDurability(item: InventoryItem, amount: int): (r: InventoryItem)
    ensures r.durability == item.durability - amount
    ensures r.name == item.name && r.kind == item.kind
    ensures r.power == item.power && r.healthRestore == item.healthRestore
  {
    item.(durability := item.durability - amount)
  }
}
