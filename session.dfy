/**
 * The scene-traversal logic of `MainController` as pure transitions over an abstract
 * session: the player state of `GameModel` plus the controller's own bookkeeping (the
 * last scene whose health change was applied, the scenes whose item was processed, the
 * current scene and the weapon-removal dialogs waiting to be shown).
 */
module Traversal {
  import opened Wrappers
  import opened Items
  import opened Inventory
  import opened Text
  import opened Combat
  import PlayerModel
  import JavaInt
  import Scenes

  const InventoryChoiceId: string := "inventory_choice"
  const StartId: string := "start"
  const FightResultPrefix: string := "fight_result"
  const FightLabel: string := "Fight"
  const HealthHeavyLabel: string := "health heavy"
  const AttackHeavyLabel: string := "attack heavy"
  const BalancedLabel: string := "balanced"

  /** What the controller reads from a scene object. */
  datatype SceneView = SceneView(id: string, healthChange: int, addItem: Option<InventoryItem>, threatLevel: int)

  /** A weapon-removal dialog queued with `Platform.runLater`, with the arguments it captured. */
  datatype PendingRemoval = PendingRemoval(weaponNames: seq<string>, item: InventoryItem, sceneId: string)

  /** The contents of the three preset inventory files. */
  datatype Presets = Presets(healthHeavy: seq<InventoryItem>, attackHeavy: seq<InventoryItem>, balanced: seq<InventoryItem>)

  /**
   * What stays fixed while the game runs: the loaded scenes by id, the visiting order of the
   * inventory map, the default inventory file and the preset files.
   */
  datatype Config = Config(story: map<string, SceneView>, order: seq<ItemType>,
                           defaultInventory: seq<InventoryItem>, presets: Presets)

  /** Every scene is stored under its own id, and the map order visits every category once. */
  predicate WellFormed(c: Config) {
    IsCategoryOrder(c.order) && forall id :: id in c.story ==> c.story[id].id == id
  }

  datatype Session = Session(
    health: int,
    darkMode: bool,
    state: GameState,
    inventory: Inv,
    /** `lastHealthAppliedSceneId` */
    marker: Option<string>,
    /** `addItemProcessedScenes` */
    processed: set<string>,
    /** `currentScene` */
    current: Option<SceneView>,
    pending: seq<PendingRemoval>)

  /** What `GameModel` keeps true of the player state. */
  predicate Sound(s: Session) {
    0 <= s.health <= 100 && Inventory.Valid(s.inventory)
  }

  /** `loader.getSceneById`. */
  function Lookup(c: Config, id: Option<string>): (r: Option<SceneView>)
    ensures r.Some? <==> id.Some? && id.value in c.story
    ensures r.Some? ==> r.value == c.story[id.value]
  {
    if id.Some? && id.value in c.story then Some(c.story[id.value]) else None
  }

  /**
   * The health step of `showSceneView`: only when the scene differs from the marker, and
   * then the change is skipped for fight-result scenes but the marker is set regardless.
   */
  function EntryHealth(s: Session, v: SceneView): (r: Session)
    ensures r == s.(health := r.health, marker := r.marker)
    ensures r.marker == Some(v.id)
    ensures s.marker == Some(v.id) || StartsWith(v.id, FightResultPrefix) ==> r.health == s.health
    ensures s.marker != Some(v.id) && !StartsWith(v.id, FightResultPrefix) ==>
              r.health == PlayerModel.Healed(s.health, v.healthChange)
    ensures Sound(s) ==> Sound(r)
  {
    if s.marker != Some(v.id) then
      var health := if !StartsWith(v.id, FightResultPrefix) then PlayerModel.Healed(s.health, v.healthChange) else s.health;
      s.(health := health, marker := Some(v.id))
    else s
  }

  /**
   * The item step of `showSceneView`, for a scene not yet processed: add the item; a
   * rejected weapon queues a removal dialog and leaves the scene unprocessed, any other
   * outcome marks it processed.
   */
  function EntryGrant(s: Session, id: string, item: InventoryItem): (r: Session)
    ensures r == s.(inventory := r.inventory, processed := r.processed, pending := r.pending)
    ensures r.inventory == TryAdd(s.inventory, item).0
    ensures TryAdd(s.inventory, item).1 || !IsWeapon(item) ==> r.processed == s.processed + {id} && r.pending == s.pending
    ensures !TryAdd(s.inventory, item).1 && IsWeapon(item) ==>
              r.processed == s.processed &&
              r.pending == s.pending + [PendingRemoval(Names(Get(s.inventory, Weapon)), item, id)]
    ensures Sound(s) ==> Sound(r)
  {
    var (inv, added) := TryAdd(s.inventory, item);
    if !added && IsWeapon(item) then
      s.(inventory := inv, pending := s.pending + [PendingRemoval(Names(Get(inv, Weapon)), item, id)])
    else
      s.(inventory := inv, processed := s.processed + {id})
  }

  /**
   * `showSceneView(scene)`. A `null` scene is stored as the current scene and the call then
   * fails on `scene.getId()`, so nothing else changes.
   */
  function Enter(s: Session, v: Option<SceneView>): (r: Session)
    ensures r.current == v && r.darkMode == s.darkMode && r.state == s.state
    ensures v.None? ==> r == s.(current := None)
    ensures v.Some? ==> r.marker == Some(v.value.id) && r.health == EntryHealth(s.(current := v), v.value).health
    ensures v.Some? && (v.value.addItem.None? || v.value.id in s.processed) ==>
              r.inventory == s.inventory && r.processed == s.processed && r.pending == s.pending
    ensures v.Some? && v.value.addItem.Some? && v.value.id !in s.processed ==>
              r == EntryGrant(EntryHealth(s.(current := v), v.value), v.value.id, v.value.addItem.value)
    ensures Sound(s) ==> Sound(r)
  {
    if v.None? then s.(current := None)
    else
      var scene := v.value;
      var s1 := EntryHealth(s.(current := v), scene);
      if scene.addItem.Some? && scene.id !in s1.processed then EntryGrant(s1, scene.id, scene.addItem.value)
      else s1
  }

  /** `updateView`: the title screen reloads the default inventory and forgets processed items. */
  function UpdateView(s: Session, c: Config): (r: Session)
    ensures r.darkMode == s.darkMode
    ensures s.state == Title ==>
              r == s.(inventory := AddAll(EmptyInventory(), c.defaultInventory), processed := {})
    ensures s.state == FirstChoice && StartId !in c.story ==> r == s.(state := Ending)
    ensures s.state == FirstChoice && StartId in c.story ==> r == Enter(s, Some(c.story[StartId]))
    ensures s.state == Instructions || s.state == Ending ==> r == s
    ensures Sound(s) ==> Sound(r)
  {
    match s.state
    case Title =>
      AddAllValid(EmptyInventory(), c.defaultInventory);
      s.(inventory := AddAll(EmptyInventory(), c.defaultInventory), processed := {})
    case FirstChoice =>
      var start := Lookup(c, Some(StartId));
      if start.Some? then Enter(s, start) else s.(state := Ending)
    case _ => s
  }

  /** The preset named by a choice label, compared after lower-casing; none for any other label. */
  function PresetFor(p: Presets, choiceLabel: string): (items: seq<InventoryItem>)
    ensures ToLower(choiceLabel) == HealthHeavyLabel ==> items == p.healthHeavy
    ensures ToLower(choiceLabel) == AttackHeavyLabel ==> items == p.attackHeavy
    ensures ToLower(choiceLabel) == BalancedLabel ==> items == p.balanced
    ensures ToLower(choiceLabel) !in {HealthHeavyLabel, AttackHeavyLabel, BalancedLabel} ==> items == []
  {
    var key := ToLower(choiceLabel);
    if key == HealthHeavyLabel then p.healthHeavy
    else if key == AttackHeavyLabel then p.attackHeavy
    else if key == BalancedLabel then p.balanced
    else []
  }

  /** `applyInventoryChoice`: clear the inventory, then `addItem` each item of the chosen preset. */
  function ApplyInventoryChoice(s: Session, c: Config, choiceLabel: string): (r: Session)
    ensures r == s.(inventory := AddAll(EmptyInventory(), PresetFor(c.presets, choiceLabel)))
    ensures Sound(s) ==> Sound(r)
  {
    AddAllValid(EmptyInventory(), PresetFor(c.presets, choiceLabel));
    s.(inventory := AddAll(EmptyInventory(), PresetFor(c.presets, choiceLabel)))
  }

  /**
   * The fight itself, before the result scene is entered: the chosen weapon (if any) loses
   * durability, and health drops by the win penalty or, for an unarmed loss, the loss penalty.
   */
  function AfterFight(s: Session, threat: int): (r: Session)
    ensures r == s.(health := r.health, inventory := r.inventory)
    ensures Wins(Get(s.inventory, Weapon), threat) ==>
              r.health == PlayerModel.Healed(s.health, JavaInt.Neg(WinHealthPenalty(threat)))
    ensures !Wins(Get(s.inventory, Weapon), threat) ==>
              r.health == PlayerModel.Healed(s.health, JavaInt.Neg(LoseHealthPenalty(threat)))
    ensures ChooseWeapon(Get(s.inventory, Weapon), threat).None? ==> r.inventory == s.inventory
    ensures ChooseWeapon(Get(s.inventory, Weapon), threat).Some? ==>
              r.inventory == WearWeapon(s.inventory, ChooseWeapon(Get(s.inventory, Weapon), threat).value,
                                        DurabilityDecrease(threat))
    ensures Sound(s) ==> Sound(r)
  {
    var ws := Get(s.inventory, Weapon);
    match ChooseWeapon(ws, threat)
    case Some(i) =>
      s.(inventory := WearWeapon(s.inventory, i, DurabilityDecrease(threat)),
         health := PlayerModel.Healed(s.health, JavaInt.Neg(WinHealthPenalty(threat))))
    case None =>
      if FistsPower >= threat then s.(health := PlayerModel.Healed(s.health, JavaInt.Neg(WinHealthPenalty(threat))))
      else s.(health := PlayerModel.Healed(s.health, JavaInt.Neg(LoseHealthPenalty(threat))))
  }

  /** The scene a fight leads to. */
  function FightRoute(ws: seq<InventoryItem>, threat: int): (id: string)
    ensures id == WinRoute <==> Wins(ws, threat)
    ensures id == LoseRoute <==> !Wins(ws, threat)
  {
    if Wins(ws, threat) then WinRoute else LoseRoute
  }

  /** `handleFight`: fight, then enter the matching fight-result scene. */
  function HandleFight(s: Session, c: Config, threat: int): (r: Session)
    ensures Sound(s) ==> Sound(r)
  {
    Enter(AfterFight(s, threat), Lookup(c, Some(FightRoute(Get(s.inventory, Weapon), threat))))
  }

  /**
   * The choice handler, for a choice with this label and next id on the view of `scene`.
   * With no current scene the handler fails at once and nothing changes.
   */
  function Choose(s: Session, c: Config, scene: SceneView, choiceLabel: string, nextId: Option<string>): (r: Session)
    ensures s.current.None? ==> r == s
    ensures Sound(s) ==> Sound(r)
  {
    if s.current.None? then s
    else if s.current.value.id == InventoryChoiceId then
      Enter(ApplyInventoryChoice(s, c, choiceLabel), Lookup(c, Some(StartId)))
    else if scene.threatLevel > Scenes.NoThreat && EqualsIgnoreCase(FightLabel, choiceLabel) then
      HandleFight(s, c, scene.threatLevel)
    else
      var next := Lookup(c, nextId);
      if next.Some? then Enter(s, next) else UpdateView(s.(state := Ending), c)
  }

  /** The consume handler: a consumed item re-renders the view's scene; a refused one changes nothing. */
  function Consume(s: Session, c: Config, scene: SceneView, item: Option<InventoryItem>): (r: Session)
    ensures !(item.Some? && IsConsumable(item.value)) ==> r == s
    ensures Sound(s) ==> Sound(r)
  {
    if item.Some? && IsConsumable(item.value) then
      RemoveOneValid(s.inventory, c.order, item.value);
      Enter(s.(health := PlayerModel.Healed(s.health, item.value.healthRestore),
               inventory := RemoveOne(s.inventory, c.order, item.value)), Some(scene))
    else s
  }

  /** The theme toggle of the scene view: flip the flag and re-render the current scene. */
  function ToggleTheme(s: Session): (r: Session)
    ensures r.darkMode == !s.darkMode
    ensures Sound(s) ==> Sound(r)
  {
    Enter(s.(darkMode := !s.darkMode), s.current)
  }

  /**
   * The reset handler: once confirmed, forget both markers, restore health and show the
   * title; declined, nothing changes.
   */
  function Reset(s: Session, c: Config, confirmed: bool): (r: Session)
    ensures !confirmed ==> r == s
    ensures confirmed ==> r.marker == None && r.processed == {} && r.state == Title &&
                          r.health == PlayerModel.InitialHealth && r.darkMode == s.darkMode &&
                          r.inventory == AddAll(EmptyInventory(), c.defaultInventory)
    ensures Sound(s) ==> Sound(r)
  {
    if confirmed then
      UpdateView(s.(marker := None, processed := {}, health := PlayerModel.InitialHealth, state := Title), c)
    else s
  }

  /**
   * The oldest queued weapon-removal dialog, answered with the weapon name picked (none when
   * the chooser is cancelled) and the answer to the confirmation. A declined confirmation
   * queues the same dialog again; a confirmed one removes the named item, adds the new
   * item, marks the scene processed and enters it (or re-renders when it is unknown).
   */
  function RemovalDialog(s: Session, c: Config, selection: Option<string>, confirmed: bool): (r: Session)
    requires s.pending != []
    ensures selection.None? ==> r == s.(pending := s.pending[1..])
    ensures selection.Some? && !confirmed ==> r == s.(pending := s.pending[1..] + [s.pending[0]])
    ensures Sound(s) ==> Sound(r)
  {
    var p := s.pending[0];
    var s0 := s.(pending := s.pending[1..]);
    if selection.None? then s0
    else if !confirmed then s0.(pending := s0.pending + [p])
    else ConfirmRemoval(s0, c, p, selection.value)
  }

  /**
   * A confirmed removal: drop the named weapon, add the pending item, mark its scene as
   * processed and show that scene again (or the current state's view when it is gone).
   */
  function ConfirmRemoval(s: Session, c: Config, p: PendingRemoval, name: string): (r: Session)
    ensures Sound(s) ==> Sound(r)
  {
    var s1 := Restocked(s, c, p, name);
    var next := Lookup(c, Some(p.sceneId));
    if next.Some? then Enter(s1, next) else UpdateView(s1, c)
  }

  /** The named weapon swapped for the pending item, whose scene counts as processed. */
  function Restocked(s: Session, c: Config, p: PendingRemoval, name: string): (r: Session)
    ensures r == s.(inventory := r.inventory, processed := s.processed + {p.sceneId})
    ensures r.inventory == TryAdd(RemoveByName(s.inventory, c.order, name).0, p.item).0
    ensures Sound(s) ==> Sound(r)
  {
    RemoveByNameValid(s.inventory, c.order, name);
    var inv := TryAdd(RemoveByName(s.inventory, c.order, name).0, p.item).0;
    s.(inventory := inv, processed := s.processed + {p.sceneId})
  }

  /** The title's start button: clear the inventory and enter the preset scene, else `start`. */
  function TitleStart(s: Session, c: Config): (r: Session)
    ensures Sound(s) ==> Sound(r)
  {
    var s1 := s.(inventory := Cleared(s.inventory));
    var choice := Lookup(c, Some(InventoryChoiceId));
    if choice.Some? then Enter(s1, choice) else Enter(s1, Lookup(c, Some(StartId)))
  }
}
