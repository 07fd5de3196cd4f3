/**
 * The inventory of `GameModel` as a value: a map from category to the ordered list of
 * items of that category, and the pure operations the model's methods perform on it.
 */
module Inventory {
  import opened Items

  type Inv = map<ItemType, seq<InventoryItem>>

  /** The list of a category, or the empty list when the category has no entry. */
  function Get(inv: Inv, t: ItemType): seq<InventoryItem> {
    if t in inv then inv[t] else []
  }

  /** The map the constructor builds: one empty list per category. */
  function EmptyInventory(): (inv: Inv)
    ensures Valid(inv)
    ensures forall t :: Get(inv, t) == []
  {
    var inv := map[Weapon := [], Consumable := [], KeyItem := []];
    assert Complete(inv) by {
      forall t: ItemType ensures t in inv {
        EveryKind(t);
      }
    }
    inv
  }

  lemma EveryKind(t: ItemType)
    ensures t == Weapon || t == Consumable || t == KeyItem
  {
  }

  /** Every category has an entry. */
  predicate Complete(inv: Inv) {
    forall t: ItemType :: t in inv
  }

  /** No category holds more than its capacity. */
  predicate WithinCaps(inv: Inv) {
    forall t :: t in inv ==> |inv[t]| <= Capacity(t)
  }

  /** Every item sits in the list of its own category. */
  predicate KindsMatch(inv: Inv) {
    forall t, i :: t in inv && 0 <= i < |inv[t]| ==> inv[t][i].kind == t
  }

  predicate Valid(inv: Inv) {
    Complete(inv) && WithinCaps(inv) && KindsMatch(inv)
  }

  /** The order in which a `HashMap` keyed by category visits its lists: all three, once each. */
  predicate IsCategoryOrder(order: seq<ItemType>) {
    |order| == 3 && (forall t: ItemType :: t in order) &&
    forall i, j :: 0 <= i < j < |order| ==> order[i] != order[j]
  }

  /**
   * `addItem`: make sure the item's category has a list, then append the item when the
   * list is below its capacity. The boolean says whether the item was added.
   */
  function TryAdd(inv: Inv, item: InventoryItem): (r: (Inv, bool))
    ensures r.1 <==> |Get(inv, item.kind)| < Capacity(item.kind)
    ensures Get(r.0, item.kind) == if r.1 then Get(inv, item.kind) + [item] else Get(inv, item.kind)
    ensures forall t :: t != item.kind ==> (t in r.0 <==> t in inv)
    ensures forall t :: t != item.kind && t in inv ==> r.0[t] == inv[t]
    ensures Complete(inv) && !r.1 ==> r.0 == inv
    ensures Valid(inv) ==> Valid(r.0)
  {
    var inv' := if item.kind in inv then inv else inv[item.kind := []];
    var items := inv'[item.kind];
    if |items| >= Capacity(item.kind) then (inv', false)
    else (inv'[item.kind := items + [item]], true)
  }

  /** A sequence of `addItem` calls, in order, from `inv`. */
  function AddAll(inv: Inv, items: seq<InventoryItem>): Inv
    decreases |items|
  {
    if items == [] then inv else AddAll(TryAdd(inv, items[0]).0, items[1..])
  }

  /** Adding one more item at the end is one more `addItem` call. */
  lemma {:induction false} AddAllSnoc(inv: Inv, items: seq<InventoryItem>, x: InventoryItem)
    ensures AddAll(inv, items + [x]) == TryAdd(AddAll(inv, items), x).0
    decreases |items|
  {
    if items == [] {
      assert items + [x] == [x];
      assert AddAll(inv, [x]) == AddAll(TryAdd(inv, x).0, []);
    } else {
      assert (items + [x])[0] == items[0];
      assert (items + [x])[1..] == items[1..] + [x];
      AddAllSnoc(TryAdd(inv, items[0]).0, items[1..], x);
    }
  }

  /** The loop form of `AddAllSnoc`: the prefix of length `i + 1` is one call past the prefix of length `i`. */
  lemma AddAllPrefix(inv: Inv, items: seq<InventoryItem>, i: nat)
    requires i < |items|
    ensures AddAll(inv, items[..i + 1]) == TryAdd(AddAll(inv, items[..i]), items[i]).0
  {
    AddAllSnoc(inv, items[..i], items[i]);
    assert items[..i + 1] == items[..i] + [items[i]];
  }

  /** The items of one category, in order. */
  function OfKind(items: seq<InventoryItem>, t: ItemType): (r: seq<InventoryItem>)
    ensures |r| <= |items|
    ensures forall x :: x in r ==> x in items && x.kind == t
  {
    if items == [] then []
    else (if items[0].kind == t then [items[0]] else []) + OfKind(items[1..], t)
  }

  /** Every item of the category is kept, as often as it occurs, and no other item. */
  lemma {:induction false} OfKindCounts(items: seq<InventoryItem>, t: ItemType)
    ensures forall x :: multiset(OfKind(items, t))[x] == if x.kind == t then multiset(items)[x] else 0
  {
    if items != [] {
      assert items == [items[0]] + items[1..];
      OfKindCounts(items[1..], t);
    }
  }

  /** One step of the filter: the head is kept exactly when it is of the category. */
  lemma OfKindCons(x: InventoryItem, rest: seq<InventoryItem>, t: ItemType)
    ensures OfKind([x] + rest, t) == (if x.kind == t then [x] else []) + OfKind(rest, t)
  {
    assert ([x] + rest)[0] == x && ([x] + rest)[1..] == rest;
  }

  lemma Regroup(h: seq<InventoryItem>, x: seq<InventoryItem>, y: seq<InventoryItem>)
    ensures h + (x + y) == (h + x) + y
  {
  }

  /** Selecting a category commutes with concatenation, so the input order is kept. */
  lemma {:induction false} OfKindAppend(a: seq<InventoryItem>, b: seq<InventoryItem>, t: ItemType)
    ensures OfKind(a + b, t) == OfKind(a, t) + OfKind(b, t)
  {
    if a == [] {
      assert a + b == b;
    } else {
      assert a == [a[0]] + a[1..] && a + b == [a[0]] + (a[1..] + b);
      OfKindCons(a[0], a[1..], t);
      OfKindCons(a[0], a[1..] + b, t);
      OfKindAppend(a[1..], b, t);
      Regroup(if a[0].kind == t then [a[0]] else [], OfKind(a[1..], t), OfKind(b, t));
    }
  }

  /** The first `n` elements of `s`, or all of them when there are fewer. */
  function TakeUpTo(s: seq<InventoryItem>, n: nat): (r: seq<InventoryItem>)
    ensures |r| <= n && |r| <= |s|
    ensures r == s[..|r|]
    ensures |s| <= n ==> r == s
    ensures |s| > n ==> r == s[..n]
  {
    if |s| <= n then s else s[..n]
  }

  /** No sequence of `addItem` calls pushes a category above its capacity. */
  lemma {:induction false} AddAllValid(inv: Inv, items: seq<InventoryItem>)
    ensures Valid(inv) ==> Valid(AddAll(inv, items))
    decreases |items|
  {
    if items != [] {
      AddAllValid(TryAdd(inv, items[0]).0, items[1..]);
    }
  }

  /**
   * What a sequence of `addItem` calls leaves in a category: the old list followed by the
   * first items of that category in the sequence, as many as still fit.
   */
  lemma AddAllCategory(inv: Inv, items: seq<InventoryItem>, t: ItemType)
    requires |Get(inv, t)| <= Capacity(t)
    ensures Get(AddAll(inv, items), t) == Get(inv, t) + TakeUpTo(OfKind(items, t), Capacity(t) - |Get(inv, t)|)
  {
    AddAllFolds(inv, items, t);
    FillSpec(Get(inv, t), items, t, Capacity(t));
  }

  /** One category's list under a sequence of `addItem` calls, step by step. */
  function Fill(g: seq<InventoryItem>, items: seq<InventoryItem>, t: ItemType, cap: nat): seq<InventoryItem>
    decreases |items|
  {
    if items == [] then g
    else Fill(if items[0].kind == t && |g| < cap then g + [items[0]] else g, items[1..], t, cap)
  }

  lemma {:induction false} AddAllFolds(inv: Inv, items: seq<InventoryItem>, t: ItemType)
    ensures Get(AddAll(inv, items), t) == Fill(Get(inv, t), items, t, Capacity(t))
    decreases |items|
  {
    if items != [] {
      TryAddGet(inv, items[0], t);
      AddAllFolds(TryAdd(inv, items[0]).0, items[1..], t);
    }
  }

  lemma {:induction false} FillSpec(g: seq<InventoryItem>, items: seq<InventoryItem>, t: ItemType, cap: nat)
    requires |g| <= cap
    ensures Fill(g, items, t, cap) == g + TakeUpTo(OfKind(items, t), cap - |g|)
    decreases |items|
  {
    if items == [] {
      assert OfKind(items, t) == [];
    } else {
      var x, rest := items[0], OfKind(items[1..], t);
      if x.kind != t {
        FillSpec(g, items[1..], t, cap);
        assert OfKind(items, t) == rest;
      } else if |g| < cap {
        FillSpec(g + [x], items[1..], t, cap);
        assert OfKind(items, t) == [x] + rest;
        StepAdded(g, x, rest, cap - |g|);
      } else {
        FillSpec(g, items[1..], t, cap);
        assert OfKind(items, t) == [x] + rest;
        assert TakeUpTo(rest, 0) == TakeUpTo([x] + rest, 0) == [];
      }
    }
  }

  /** The sequence algebra of a step of `FillSpec` in which the item is added. */
  lemma StepAdded(g: seq<InventoryItem>, x: InventoryItem, rest: seq<InventoryItem>, room: nat)
    requires room > 0
    ensures (g + [x]) + TakeUpTo(rest, room - 1) == g + TakeUpTo([x] + rest, room)
  {
    TakeUpToCons(x, rest, room);
    assert (g + [x]) + TakeUpTo(rest, room - 1) == g + ([x] + TakeUpTo(rest, room - 1));
  }

  /** One `addItem` call, seen from one category. */
  lemma TryAddGet(inv: Inv, x: InventoryItem, t: ItemType)
    ensures Get(TryAdd(inv, x).0, t) ==
      if x.kind == t && |Get(inv, t)| < Capacity(t) then Get(inv, t) + [x] else Get(inv, t)
  {
  }

  lemma TakeUpToCons(x: InventoryItem, rest: seq<InventoryItem>, n: nat)
    requires n > 0
    ensures TakeUpTo([x] + rest, n) == [x] + TakeUpTo(rest, n - 1)
  {
    if |rest| > n - 1 {
      assert ([x] + rest)[..n] == [x] + rest[..n - 1];
    }
  }

  /** Some item of `s` has this name. */
  predicate HasNamed(s: seq<InventoryItem>, name: string) {
    exists i :: 0 <= i < |s| && s[i].name == name
  }

  /** `removeIf(i -> i.getName().equals(name))`: drop every item with that name, keep the rest in order. */
  function WithoutNamed(s: seq<InventoryItem>, name: string): (r: seq<InventoryItem>)
    ensures |r| <= |s|
    ensures forall x {:trigger x in r} :: x in r <==> x in s && x.name != name
    ensures !HasNamed(s, name) ==> r == s
    ensures HasNamed(s, name) ==> |r| < |s|
  {
    if s == [] then []
    else
      var tail := WithoutNamed(s[1..], name);
      assert HasNamed(s, name) && s[0].name != name ==> HasNamed(s[1..], name) by {
        if HasNamed(s, name) && s[0].name != name {
          var i :| 0 <= i < |s| && s[i].name == name;
          assert s[1..][i - 1].name == name;
        }
      }
      assert !HasNamed(s, name) ==> !HasNamed(s[1..], name) by {
        if HasNamed(s[1..], name) {
          var i :| 0 <= i < |s[1..]| && s[1..][i].name == name;
          assert s[i + 1].name == name;
        }
      }
      if s[0].name == name then tail else [s[0]] + tail
  }

  /** Every item with another name is kept, as often as it occurs, and no item with this name. */
  lemma {:induction false} WithoutNamedCounts(s: seq<InventoryItem>, name: string)
    ensures forall x :: multiset(WithoutNamed(s, name))[x] == if x.name != name then multiset(s)[x] else 0
  {
    if s != [] {
      assert s == [s[0]] + s[1..];
      WithoutNamedCounts(s[1..], name);
    }
  }

  /** One step of `removeIf`: the head is dropped exactly when it has the name. */
  lemma WithoutNamedCons(x: InventoryItem, rest: seq<InventoryItem>, name: string)
    ensures WithoutNamed([x] + rest, name) == (if x.name == name then [] else [x]) + WithoutNamed(rest, name)
  {
    assert ([x] + rest)[0] == x && ([x] + rest)[1..] == rest;
  }

  /** The first element of `a` is filtered the same way alone and in front of `b`. */
  lemma WithoutNamedHead(a: seq<InventoryItem>, b: seq<InventoryItem>, name: string)
    requires a != []
    ensures var head := if a[0].name == name then [] else [a[0]];
            WithoutNamed(a, name) == head + WithoutNamed(a[1..], name) &&
            WithoutNamed(a + b, name) == head + WithoutNamed(a[1..] + b, name)
  {
    assert a + b == [a[0]] + (a[1..] + b);
    assert a == [a[0]] + a[1..];
    WithoutNamedCons(a[0], a[1..] + b, name);
    WithoutNamedCons(a[0], a[1..], name);
  }

  /** `removeIf` works element by element: it commutes with concatenation, so order is kept. */
  lemma {:induction false} WithoutNamedAppend(a: seq<InventoryItem>, b: seq<InventoryItem>, name: string)
    ensures WithoutNamed(a + b, name) == WithoutNamed(a, name) + WithoutNamed(b, name)
  {
    if a == [] {
      assert a + b == b;
    } else {
      WithoutNamedHead(a, b, name);
      WithoutNamedAppend(a[1..], b, name);
      Regroup(if a[0].name == name then [] else [a[0]], WithoutNamed(a[1..], name), WithoutNamed(b, name));
    }
  }



  /** The index of the first category in `order` whose list holds an item with this name. */
  predicate FirstNamedAt(inv: Inv, order: seq<ItemType>, name: string, k: nat) {
    k < |order| && order[k] in inv && HasNamed(inv[order[k]], name) &&
    forall j :: 0 <= j < k ==> !(order[j] in inv && HasNamed(inv[order[j]], name))
  }

  /**
   * `removeItem`: in the first category (in `order`) that holds an item with this name,
   * remove all items with that name; report whether such a category was found.
   */
  function RemoveByName(inv: Inv, order: seq<ItemType>, name: string): (r: (Inv, bool))
    ensures r.1 <==> exists k :: 0 <= k < |order| && order[k] in inv && HasNamed(inv[order[k]], name)
    ensures !r.1 ==> r.0 == inv
    ensures r.1 ==> exists k: nat :: FirstNamedAt(inv, order, name, k) &&
                      r.0 == inv[order[k] := WithoutNamed(inv[order[k]], name)]
    decreases |order|
  {
    if order == [] then (inv, false)
    else if order[0] in inv && HasNamed(inv[order[0]], name) then
      assert FirstNamedAt(inv, order, name, 0);
      (inv[order[0] := WithoutNamed(inv[order[0]], name)], true)
    else
      var r := RemoveByName(inv, order[1..], name);
      assert forall k :: 1 <= k < |order| ==> order[k] == order[1..][k - 1];
      if r.1 then
        var k: nat :| FirstNamedAt(inv, order[1..], name, k) &&
                 r.0 == inv[order[1..][k] := WithoutNamed(inv[order[1..][k]], name)];
        assert FirstNamedAt(inv, order, name, k + 1);
        r
      else
        r
  }

  /** Once the first category holding the name is known, the result of `RemoveByName` is determined. */
  lemma RemoveByNameAt(inv: Inv, order: seq<ItemType>, name: string, k: nat)
    requires FirstNamedAt(inv, order, name, k)
    ensures RemoveByName(inv, order, name) == (inv[order[k] := WithoutNamed(inv[order[k]], name)], true)
  {
    var r := RemoveByName(inv, order, name);
    var k': nat :| FirstNamedAt(inv, order, name, k') &&
              r.0 == inv[order[k'] := WithoutNamed(inv[order[k']], name)];
    assert k' == k;
  }

  /** Removing by name keeps the inventory valid. */
  lemma RemoveByNameValid(inv: Inv, order: seq<ItemType>, name: string)
    ensures Valid(inv) ==> Valid(RemoveByName(inv, order, name).0)
  {
    var r := RemoveByName(inv, order, name);
    if Valid(inv) && r.1 {
      var k: nat :| FirstNamedAt(inv, order, name, k) &&
               r.0 == inv[order[k] := WithoutNamed(inv[order[k]], name)];
      var t := order[k];
      var s := WithoutNamed(inv[t], name);
      forall i | 0 <= i < |s| ensures s[i].kind == t {
        assert s[i] in s;
        assert s[i] in inv[t];
      }
    }
  }

  /** The position of the first occurrence of `x` in `s`. */
  function FirstIndex(s: seq<InventoryItem>, x: InventoryItem): (i: nat)
    requires x in s
    ensures i < |s| && s[i] == x && x !in s[..i]
  {
    if s[0] == x then 0
    else
      var i := FirstIndex(s[1..], x);
      assert s[..i + 1] == [s[0]] + s[1..][..i];
      i + 1
  }

  /** `List.remove(Object)`: drop the first occurrence of `x`, if any. */
  function RemoveFirst(s: seq<InventoryItem>, x: InventoryItem): (r: seq<InventoryItem>)
    ensures x !in s ==> r == s
    ensures x in s ==> r == s[..FirstIndex(s, x)] + s[FirstIndex(s, x) + 1..]
    ensures |r| <= |s|
    ensures forall y :: y in r ==> y in s
  {
    if x in s then
      var i := FirstIndex(s, x);
      assert forall y :: y in s[..i] + s[i + 1..] ==> y in s by {
        forall y | y in s[..i] + s[i + 1..] ensures y in s {
          if y in s[..i] {
            var k :| 0 <= k < i && s[..i][k] == y;
            assert s[k] == y;
          } else {
            var k :| 0 <= k < |s| - i - 1 && s[i + 1..][k] == y;
            assert s[i + 1 + k] == y;
          }
        }
      }
      s[..i] + s[i + 1..]
    else s
  }

  /** The index of the first category in `order` whose list contains `x`. */
  predicate FirstHoldingAt(inv: Inv, order: seq<ItemType>, x: InventoryItem, k: nat) {
    k < |order| && order[k] in inv && x in inv[order[k]] &&
    forall j :: 0 <= j < k ==> !(order[j] in inv && x in inv[order[j]])
  }

  /**
   * The removal loop of `consumeItem`: remove one occurrence of `x` from the first category
   * (in `order`) whose list contains it; nothing changes when no list contains it.
   */
  function RemoveOne(inv: Inv, order: seq<ItemType>, x: InventoryItem): (r: Inv)
    ensures (forall k :: 0 <= k < |order| ==> !(order[k] in inv && x in inv[order[k]])) ==> r == inv
    ensures forall k: nat :: FirstHoldingAt(inv, order, x, k) ==> r == inv[order[k] := RemoveFirst(inv[order[k]], x)]
    decreases |order|
  {
    if order == [] then inv
    else if order[0] in inv && x in inv[order[0]] then inv[order[0] := RemoveFirst(inv[order[0]], x)]
    else
      assert forall k :: 1 <= k < |order| ==> order[k] == order[1..][k - 1];
      assert forall k: nat :: FirstHoldingAt(inv, order, x, k) ==> k >= 1 && FirstHoldingAt(inv, order[1..], x, k - 1);
      RemoveOne(inv, order[1..], x)
  }

  /** Removing one occurrence keeps the inventory valid. */
  lemma RemoveOneValid(inv: Inv, order: seq<ItemType>, x: InventoryItem)
    ensures Valid(inv) ==> Valid(RemoveOne(inv, order, x))
    decreases |order|
  {
    if order != [] && Valid(inv) {
      if order[0] in inv && x in inv[order[0]] {
        var t := order[0];
        var s := RemoveFirst(inv[t], x);
        forall i | 0 <= i < |s| ensures s[i].kind == t {
          assert s[i] in s;
        }
      } else {
        RemoveOneValid(inv, order[1..], x);
      }
    }
  }

  /** `removeFromInventory`: drop the first occurrence of the item from its own category. */
  function RemoveFromOwn(inv: Inv, x: InventoryItem): (r: Inv)
    requires x.kind in inv
    ensures Valid(inv) ==> Valid(r)
    ensures forall t :: t != x.kind && t in inv ==> t in r && r[t] == inv[t]
    ensures x.kind in r && r[x.kind] == RemoveFirst(inv[x.kind], x)
  {
    var s := RemoveFirst(inv[x.kind], x);
    assert Valid(inv) ==> Valid(inv[x.kind := s]) by {
      if Valid(inv) {
        forall i | 0 <= i < |s| ensures s[i].kind == x.kind {
          assert s[i] in s;
        }
      }
    }
    inv[x.kind := s]
  }

  /** The inventory after `clearInventory`, assumed to empty every category list. */
  function Cleared(inv: Inv): (r: Inv)
    ensures Valid(r)
    ensures forall t :: Get(r, t) == []
  {
    EmptyInventory()
  }

  /** Replace the weapon at `i` by its copy with the durability lowered by `amount`. */
  function WearWeapon(inv: Inv, i: nat, amount: int): (r: Inv)
    requires i < |Get(inv, Weapon)|
    ensures Valid(inv) ==> Valid(r)
    ensures |Get(r, Weapon)| == |Get(inv, Weapon)|
    ensures Get(r, Weapon)[i] == DecreaseDurability(Get(inv, Weapon)[i], amount)
    ensures forall j :: 0 <= j < |Get(inv, Weapon)| && j != i ==> Get(r, Weapon)[j] == Get(inv, Weapon)[j]
    ensures forall t :: t != Weapon ==> Get(r, t) == Get(inv, t)
  {
    var ws := inv[Weapon];
    inv[Weapon := ws[i := DecreaseDurability(ws[i], amount)]]
  }

  /** The names of the items of a list, in order. */
  function Names(s: seq<InventoryItem>): (r: seq<string>)
    ensures |r| == |s|
    ensures forall i :: 0 <= i < |s| ==> r[i] == s[i].name
  {
    if s == [] then [] else [s[0].name] + Names(s[1..])
  }
}
