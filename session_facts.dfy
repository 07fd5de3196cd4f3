/**
 * What the traversal rules of `MainController` guarantee across several steps: when a
 * scene's health change is (re)applied, that an item grant happens once, what a fight and a
 * confirmed weapon removal leave behind, and how a choice is dispatched.
 */
module TraversalFacts {
  import opened Wrappers
  import opened Items
  import opened Inventory
  import opened Text
  import opened Combat
  import opened Traversal
  import PlayerModel
  import JavaInt

  /**
   * Entering the scene just entered a second time changes nothing, unless the first entry
   * queued a weapon-removal dialog.
   */
  lemma ReentryIsIdempotent(s: Session, v: SceneView)
    requires Enter(s, Some(v)).pending == s.pending
    ensures Enter(Enter(s, Some(v)), Some(v)) == Enter(s, Some(v))
  {
    var s1 := EntryHealth(s.(current := Some(v)), v);
  }

  /** A scene that is already the health marker never changes health on entry. */
  lemma MarkedEntryKeepsHealth(s: Session, v: SceneView)
    requires s.marker == Some(v.id)
    ensures Enter(s, Some(v)).health == s.health
  {
  }

  /**
   * Consuming an item on the scene that set the marker heals by the item's restore value and
   * nothing more: the re-render does not apply the scene's health change again.
   */
  lemma ConsumeHealsOnly(s: Session, c: Config, v: SceneView, x: InventoryItem)
    requires s.marker == Some(v.id) && IsConsumable(x)
    ensures Consume(s, c, v, Some(x)).health == PlayerModel.Healed(s.health, x.healthRestore)
  {
    var healed := s.(health := PlayerModel.Healed(s.health, x.healthRestore),
                     inventory := RemoveOne(s.inventory, c.order, x));
    MarkedEntryKeepsHealth(healed, v);
  }

  /**
   * Toggling the theme on a scene just entered only flips the theme: the re-render applies
   * no health change and grants no item again, unless the entry queued a removal dialog.
   */
  lemma ToggleAfterEntry(s: Session, v: SceneView)
    requires Enter(s, Some(v)).pending == s.pending
    ensures ToggleTheme(Enter(s, Some(v))) == Enter(s, Some(v)).(darkMode := !s.darkMode)
  {
    ReentryIsIdempotent(s, v);
    ReentryIsIdempotent(s.(darkMode := !s.darkMode), v);
  }

  /** Leaving a scene for another one and coming back applies its health change again. */
  lemma RevisitReappliesChange(s: Session, a: SceneView, b: SceneView)
    requires a.id != b.id && !StartsWith(a.id, FightResultPrefix)
    ensures Enter(Enter(s, Some(b)), Some(a)).health == PlayerModel.Healed(Enter(s, Some(b)).health, a.healthChange)
  {
    var s1 := Enter(s, Some(b));
    assert s1.marker == Some(b.id);
  }

  /** A fight-result scene never changes health on entry, yet it becomes the marker. */
  lemma FightResultExempt(s: Session, v: SceneView)
    requires StartsWith(v.id, FightResultPrefix)
    ensures Enter(s, Some(v)).health == s.health
    ensures Enter(s, Some(v)).marker == Some(v.id)
  {
  }

  /** Once a scene is processed its item is never offered again: entering changes no inventory. */
  lemma GrantAtMostOnce(s: Session, v: SceneView)
    requires v.id in s.processed
    ensures Enter(s, Some(v)).inventory == s.inventory
    ensures Enter(s, Some(v)).processed == s.processed
    ensures Enter(s, Some(v)).pending == s.pending
  {
  }

  /**
   * The first entry of a scene with an item marks it processed whether or not the item fit,
   * except for a weapon that did not fit: that scene stays unmarked and a dialog is queued.
   */
  lemma FirstEntryMarks(s: Session, v: SceneView)
    requires v.addItem.Some? && v.id !in s.processed && Inventory.Valid(s.inventory)
    ensures var r := Enter(s, Some(v));
            var full := |Get(s.inventory, v.addItem.value.kind)| >= Capacity(v.addItem.value.kind);
            (full && IsWeapon(v.addItem.value) <==> v.id !in r.processed) &&
            (full ==> r.inventory == s.inventory) &&
            (!full ==> Get(r.inventory, v.addItem.value.kind) == Get(s.inventory, v.addItem.value.kind) + [v.addItem.value]) &&
            (v.id !in r.processed ==> r.pending == s.pending + [PendingRemoval(Names(Get(s.inventory, Weapon)), v.addItem.value, v.id)])
  {
    var s1 := EntryHealth(s.(current := Some(v)), v);
    assert s1.inventory == s.inventory && s1.processed == s.processed && s1.pending == s.pending;
  }

  lemma WinRouteIsFightResult()
    ensures StartsWith(WinRoute, FightResultPrefix) && StartsWith(LoseRoute, FightResultPrefix)
  {
    assert WinRoute[..|FightResultPrefix|] == FightResultPrefix;
    assert LoseRoute[..|FightResultPrefix|] == FightResultPrefix;
  }

  /**
   * After a fight health has dropped by the penalty and nothing more: the result scene's own
   * health change is skipped.
   */
  lemma FightCostsOnlyThePenalty(s: Session, c: Config, threat: int)
    requires WellFormed(c)
    ensures HandleFight(s, c, threat).health == AfterFight(s, threat).health
    ensures Wins(Get(s.inventory, Weapon), threat) ==>
              HandleFight(s, c, threat).health == PlayerModel.Healed(s.health, JavaInt.Neg(WinHealthPenalty(threat)))
    ensures !Wins(Get(s.inventory, Weapon), threat) ==>
              HandleFight(s, c, threat).health == PlayerModel.Healed(s.health, JavaInt.Neg(LoseHealthPenalty(threat)))
  {
    WinRouteIsFightResult();
    var route := Lookup(c, Some(FightRoute(Get(s.inventory, Weapon), threat)));
    if route.Some? {
      FightResultExempt(AfterFight(s, threat), route.value);
    }
  }

  /** For a threat small enough not to overflow, the penalties are the plain 10+T and 25+2T. */
  lemma FightPenaltiesWithoutOverflow(s: Session, c: Config, threat: int)
    requires WellFormed(c) && 0 <= s.health <= 100 && -1 <= threat <= 1000
    ensures Wins(Get(s.inventory, Weapon), threat) ==>
              HandleFight(s, c, threat).health == PlayerModel.Clamp(s.health - (10 + threat))
    ensures !Wins(Get(s.inventory, Weapon), threat) ==>
              HandleFight(s, c, threat).health == PlayerModel.Clamp(s.health - (25 + 2 * threat))
  {
    FightCostsOnlyThePenalty(s, c, threat);
  }

  /** The fight branch is taken exactly for a scene with a threat and a label "Fight" in any case. */
  lemma FightDispatch(s: Session, c: Config, scene: SceneView, choiceLabel: string, nextId: Option<string>)
    requires s.current.Some? && s.current.value.id != InventoryChoiceId
    requires scene.threatLevel > Scenes.NoThreat && EqualsIgnoreCase(FightLabel, choiceLabel)
    ensures Choose(s, c, scene, choiceLabel, nextId) == HandleFight(s, c, scene.threatLevel)
  {
  }

  /** Any other choice follows its next id; an unknown one sets ENDING, which no view handles. */
  lemma UnknownNextEnds(s: Session, c: Config, scene: SceneView, choiceLabel: string, nextId: Option<string>)
    requires s.current.Some? && s.current.value.id != InventoryChoiceId
    requires !(scene.threatLevel > Scenes.NoThreat && EqualsIgnoreCase(FightLabel, choiceLabel))
    requires nextId.None? || nextId.value !in c.story
    ensures Choose(s, c, scene, choiceLabel, nextId) == s.(state := Ending)
  {
  }

  /** A known next id enters that scene. */
  lemma KnownNextEnters(s: Session, c: Config, scene: SceneView, choiceLabel: string, nextId: Option<string>)
    requires s.current.Some? && s.current.value.id != InventoryChoiceId
    requires !(scene.threatLevel > Scenes.NoThreat && EqualsIgnoreCase(FightLabel, choiceLabel))
    requires nextId.Some? && nextId.value in c.story
    ensures Choose(s, c, scene, choiceLabel, nextId) == Enter(s, Some(c.story[nextId.value]))
  {
  }

  /**
   * On the preset scene every category ends up holding the first items of that category in
   * the chosen preset, as many as fit, whatever it held before.
   */
  lemma PresetFillsCategories(s: Session, c: Config, choiceLabel: string, t: ItemType)
    ensures Get(ApplyInventoryChoice(s, c, choiceLabel).inventory, t) ==
            TakeUpTo(OfKind(PresetFor(c.presets, choiceLabel), t), Capacity(t))
  {
    AddAllCategory(EmptyInventory(), PresetFor(c.presets, choiceLabel), t);
  }

  /** A label naming no preset leaves the inventory empty. */
  lemma OtherLabelEmpties(s: Session, c: Config, choiceLabel: string, t: ItemType)
    requires ToLower(choiceLabel) !in {HealthHeavyLabel, AttackHeavyLabel, BalancedLabel}
    ensures Get(ApplyInventoryChoice(s, c, choiceLabel).inventory, t) == []
  {
    PresetFillsCategories(s, c, choiceLabel, t);
  }

  /**
   * A confirmed removal of a weapon's name (held by no other category) makes room for the
   * new weapon, which ends up in the weapon list, and marks its scene processed.
   */
  lemma ConfirmedRemovalMakesRoom(s: Session, c: Config, name: string)
    requires s.pending != [] && Sound(s) && WellFormed(c)
    requires IsWeapon(s.pending[0].item) && s.pending[0].sceneId in c.story
    requires HasNamed(Get(s.inventory, Weapon), name)
    requires forall t :: t != Weapon ==> !HasNamed(Get(s.inventory, t), name)
    ensures var r := RemovalDialog(s, c, Some(name), true);
            s.pending[0].sceneId in r.processed && s.pending[0].item in Get(r.inventory, Weapon)
  {
    var p := s.pending[0];
    var inv := s.inventory;
    assert Weapon in c.order;
    var k :| 0 <= k < |c.order| && c.order[k] == Weapon;
    forall j | 0 <= j < k ensures !(c.order[j] in inv && HasNamed(inv[c.order[j]], name)) {
      assert c.order[j] != Weapon;
      assert !HasNamed(Get(inv, c.order[j]), name);
    }
    assert FirstNamedAt(inv, c.order, name, k);
    RemoveByNameAt(inv, c.order, name, k);
    var removed := RemoveByName(inv, c.order, name).0;
    assert |Get(removed, Weapon)| < |Get(inv, Weapon)|;
    var s1 := s.(pending := s.pending[1..], inventory := TryAdd(removed, p.item).0,
                 processed := s.processed + {p.sceneId});
    GrantAtMostOnce(s1, c.story[p.sceneId]);
  }
}
