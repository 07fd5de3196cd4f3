/**
 * `MainController`: the controller fields and the handlers that move the player through
 * the story, each proved to perform the matching transition of `Traversal` on the
 * abstract session made of its own fields and the `GameModel` it drives.
 */
module Controller {
  import opened Wrappers
  import opened Items
  import opened Inventory
  import opened Text
  import opened Combat
  import opened Scenes
  import opened Loader
  import opened PlayerModel
  import opened Traversal
  import JavaInt

  /** The fields of a scene object the controller reads. */
  ghost function ViewOf(scene: GameScene): SceneView
    reads scene
  {
    SceneView(scene.id, scene.healthChange, scene.addItem, scene.threatLevel)
  }

  ghost function ViewOpt(scene: GameScene?): Option<SceneView>
    reads scene
  {
    if scene == null then None else Some(ViewOf(scene))
  }

  /** `for (InventoryItem w : weapons) weaponNames.add(w.getName())`. */
  method CollectNames(items: seq<InventoryItem>) returns (names: seq<string>)
    ensures names == Names(items)
  {
    names := [];
    for i := 0 to |items|
      invariant names == Names(items[..i])
    {
      NamesSnoc(items[..i], items[i]);
      assert items[..i + 1] == items[..i] + [items[i]];
      names := names + [items[i].name];
    }
    assert items[..|items|] == items;
  }

  lemma NamesSnoc(items: seq<InventoryItem>, x: InventoryItem)
    ensures Names(items + [x]) == Names(items) + [x.name]
  {
  }

  class MainController {
    const model: GameModel
    const loader: SceneLoader
    /** The contents of the default inventory file that `reloadInventory` reads back. */
    const defaultInventory: seq<InventoryItem>
    const presets: Presets
    var lastHealthAppliedSceneId: Option<string>
    var addItemProcessedScenes: set<string>
    var currentScene: GameScene?
    /** The weapon-removal dialogs queued with `Platform.runLater`, oldest first. */
    var pendingRemovals: seq<PendingRemoval>

    ghost function Story(): map<string, SceneView>
      reads loader.sceneMap.Values
    {
      map id | id in loader.sceneMap :: ViewOf(loader.sceneMap[id])
    }

    ghost function Cfg(): Config
      reads loader.sceneMap.Values
    {
      Config(Story(), model.order, defaultInventory, presets)
    }

    /** The session the controller and its model represent. */
    ghost function Abstract(): Session
      reads this, model, currentScene
    {
      Session(model.health, model.isDarkMode, model.currentState, model.inventory,
              lastHealthAppliedSceneId, addItemProcessedScenes, ViewOpt(currentScene), pendingRemovals)
    }

    ghost predicate Valid()
      reads this, model, loader.sceneMap.Values
    {
      model.Valid() && WellFormed(Cfg())
    }

    /** A lookup in the loader is a lookup in the story. */
    lemma LookupAgrees(id: Option<string>)
      ensures ViewOpt(loader.GetSceneById(id)) == Lookup(Cfg(), id)
    {
    }

    /** The constructor with the model, the loaded scenes and the inventory files as inputs. */
    constructor (initialItems: seq<InventoryItem>, order: seq<ItemType>, loader: SceneLoader,
                 defaultInventory: seq<InventoryItem>, presets: Presets)
      requires IsCategoryOrder(order)
      requires forall id :: id in loader.sceneMap ==> loader.sceneMap[id].id == id
      ensures Valid() && fresh(model) && this.loader == loader
      ensures Abstract() == Session(InitialHealth, false, Title, AddAll(EmptyInventory(), initialItems),
                                    None, {}, None, [])
      ensures Cfg() == Config(Story(), order, defaultInventory, presets)
    {
      model := new GameModel(initialItems, order);
      this.loader := loader;
      this.defaultInventory := defaultInventory;
      this.presets := presets;
      lastHealthAppliedSceneId := None;
      addItemProcessedScenes := {};
      currentScene := null;
      pendingRemovals := [];
    }

    /** `startApp`: show the view of the initial state. */
    method StartApp()
      requires Valid()
      modifies this, model
      ensures Valid()
      ensures Abstract() == Traversal.UpdateView(old(Abstract()), Cfg())
    {
      UpdateView();
    }

    method UpdateView()
      requires Valid()
      modifies this, model
      decreases if model.currentState == Ending then 0 else 2
      ensures Valid()
      ensures Abstract() == Traversal.UpdateView(old(Abstract()), Cfg())
    {
      if model.currentState == Title {
        ShowTitleView();
      } else if model.currentState == FirstChoice {
        ShowFirstChoiceView();
      }
      // INSTRUCTIONS only shows a view; ENDING has no case.
    }

    /** The title view: reset the inventory to the default and forget processed items. */
    method ShowTitleView()
      requires Valid()
      modifies this, model
      ensures Valid()
      ensures Abstract() == old(Abstract()).(inventory := AddAll(EmptyInventory(), defaultInventory), processed := {})
    {
      model.ReloadInventory(defaultInventory);
      addItemProcessedScenes := {};
    }

    method ShowFirstChoiceView()
      requires Valid() && model.currentState == FirstChoice
      modifies this, model
      decreases 1
      ensures Valid()
      ensures Abstract() == Traversal.UpdateView(old(Abstract()), Cfg())
    {
      var scene := loader.GetSceneById(Some(StartId));
      LookupAgrees(Some(StartId));
      if scene != null {
        ShowSceneView(scene);
      } else {
        model.SetCurrentState(Ending);
        UpdateView();
      }
    }

    /** `showSceneView`: the scene-entry bookkeeping. */
    method ShowSceneView(scene: GameScene?)
      requires Valid()
      modifies this, model
      ensures Valid()
      ensures Abstract() == Enter(old(Abstract()), ViewOpt(scene))
    {
      currentScene := scene;
      if scene == null {
        return;
      }
      if Some(scene.id) != lastHealthAppliedSceneId {
        if !StartsWith(scene.id, FightResultPrefix) {
          model.SubtractHealth(scene.healthChange);
        }
        lastHealthAppliedSceneId := Some(scene.id);
      }
      if scene.addItem.Some? && scene.id !in addItemProcessedScenes {
        var item := scene.addItem.value;
        var added := model.AddItem(item);
        if !added && IsWeapon(item) {
          var weaponNames := CollectNames(model.inventory[Weapon]);
          pendingRemovals := pendingRemovals + [PendingRemoval(weaponNames, item, scene.id)];
          return;
        }
        addItemProcessedScenes := addItemProcessedScenes + {scene.id};
      }
    }

    /** The choice handler of the view showing `scene`. */
    method OnChoice(scene: GameScene, choice: GameChoice)
      requires Valid()
      modifies this, model
      ensures Valid()
      ensures Abstract() == Choose(old(Abstract()), Cfg(), ViewOf(scene), choice.labelText, choice.nextId)
    {
      if currentScene == null {
        return;
      }
      if currentScene.id == InventoryChoiceId {
        ApplyInventoryChoice(choice.labelText);
        LookupAgrees(Some(StartId));
        ShowSceneView(loader.GetSceneById(Some(StartId)));
        return;
      }
      if scene.threatLevel > NoThreat && EqualsIgnoreCase(FightLabel, choice.labelText) {
        var threat := scene.threatLevel;
        HandleFight(scene, DurabilityDecrease(threat), WinHealthPenalty(threat), LoseHealthPenalty(threat));
        return;
      }
      var next := loader.GetSceneById(choice.nextId);
      LookupAgrees(choice.nextId);
      if next != null {
        ShowSceneView(next);
      } else {
        model.SetCurrentState(Ending);
        UpdateView();
      }
    }

    /** `handleFight`, called with the values of the three `compute*` helpers for the scene's threat. */
    method HandleFight(scene: GameScene, decreaseDurAmount: int, subHealthWin: int, subHealthLose: int)
      requires Valid()
      requires decreaseDurAmount == DurabilityDecrease(scene.threatLevel)
      requires subHealthWin == WinHealthPenalty(scene.threatLevel)
      requires subHealthLose == LoseHealthPenalty(scene.threatLevel)
      modifies this, model
      ensures Valid()
      ensures Abstract() == Traversal.HandleFight(old(Abstract()), Cfg(), scene.threatLevel)
    {
      var threatLevel := scene.threatLevel;
      ghost var s0 := Abstract();
      ghost var after := AfterFight(s0, threatLevel);
      var weapons := Get(model.inventory, Weapon);
      var chosen := ChooseWeapon(weapons, threatLevel);
      var route := WinRoute;
      if chosen.Some? {
        model.DecreaseWeaponDurability(chosen.value, decreaseDurAmount);
        model.SubtractHealth(JavaInt.Neg(subHealthWin));
      } else if FistsPower >= threatLevel {
        model.SubtractHealth(JavaInt.Neg(subHealthWin));
      } else {
        model.SubtractHealth(JavaInt.Neg(subHealthLose));
        route := LoseRoute;
      }
      assert Abstract() == after;
      assert route == FightRoute(weapons, threatLevel);
      LookupAgrees(Some(route));
      ShowSceneView(loader.GetSceneById(Some(route)));
    }

    /** `applyInventoryChoice`: clear, then add the chosen preset item by item. */
    method ApplyInventoryChoice(choiceLabel: string)
      requires Valid()
      modifies this, model
      ensures Valid()
      ensures Abstract() == Traversal.ApplyInventoryChoice(old(Abstract()), Cfg(), choiceLabel)
    {
      model.ClearInventory();
      var key := ToLower(choiceLabel);
      var items: seq<InventoryItem> := [];
      if key == HealthHeavyLabel {
        items := presets.healthHeavy;
      } else if key == AttackHeavyLabel {
        items := presets.attackHeavy;
      } else if key == BalancedLabel {
        items := presets.balanced;
      }
      assert items == PresetFor(presets, choiceLabel);
      ghost var cleared := Abstract();
      for i := 0 to |items|
        invariant Valid() && unchanged(this)
        invariant model.inventory == AddAll(EmptyInventory(), items[..i])
        invariant model.health == cleared.health && model.isDarkMode == cleared.darkMode
        invariant model.currentState == cleared.state
      {
        AddAllPrefix(EmptyInventory(), items, i);
        var _ := model.AddItem(items[i]);
      }
      assert items[..|items|] == items;
    }

    /** The consume handler of the view showing `scene`. */
    method OnConsume(scene: GameScene, item: Option<InventoryItem>)
      requires Valid()
      modifies this, model
      ensures Valid()
      ensures Abstract() == Consume(old(Abstract()), Cfg(), ViewOf(scene), item)
    {
      var consumed := model.ConsumeItem(item);
      if consumed {
        ShowSceneView(scene);
      }
    }

    /** The theme toggle of a scene view: flip the flag and show the current scene again. */
    method OnToggleTheme()
      requires Valid()
      modifies this, model
      ensures Valid()
      ensures Abstract() == ToggleTheme(old(Abstract()))
    {
      model.ToggleDarkMode();
      ShowSceneView(currentScene);
    }

    /** The reset handler; `confirmed` is the answer to the confirmation dialog. */
    method OnReset(confirmed: bool)
      requires Valid()
      modifies this, model
      ensures Valid()
      ensures Abstract() == Reset(old(Abstract()), Cfg(), confirmed)
    {
      if confirmed {
        lastHealthAppliedSceneId := None;
        addItemProcessedScenes := {};
        model.ResetHealth();
        model.SetCurrentState(Title);
        UpdateView();
      }
    }

    /**
     * The oldest queued weapon-removal dialog, answered with the name picked in the chooser
     * (none when it is cancelled) and the answer to the confirmation.
     */
    method OnRemovalDialog(selection: Option<string>, confirmed: bool)
      requires Valid() && pendingRemovals != []
      modifies this, model
      ensures Valid()
      ensures Abstract() == RemovalDialog(old(Abstract()), Cfg(), selection, confirmed)
    {
      var p := pendingRemovals[0];
      pendingRemovals := pendingRemovals[1..];
      if selection.None? {
        return;
      }
      if !confirmed {
        pendingRemovals := pendingRemovals + [p];
        return;
      }
      ConfirmPendingRemoval(p, selection.value);
    }

    /** The confirmed branch of the removal dialog, after the dialog has left the queue. */
    method ConfirmPendingRemoval(p: PendingRemoval, name: string)
      requires Valid()
      modifies this, model
      ensures Valid()
      ensures Abstract() == ConfirmRemoval(old(Abstract()), Cfg(), p, name)
    {
      var _ := model.RemoveItem(name);
      var _ := model.AddItem(p.item);
      addItemProcessedScenes := addItemProcessedScenes + {p.sceneId};
      assert Abstract() == Restocked(old(Abstract()), Cfg(), p, name);
      var nextScene := loader.GetSceneById(Some(p.sceneId));
      LookupAgrees(Some(p.sceneId));
      if nextScene != null {
        ShowSceneView(nextScene);
      } else {
        UpdateView();
      }
    }

    /** The title's start button. */
    method OnTitleStart()
      requires Valid()
      modifies this, model
      ensures Valid()
      ensures Abstract() == TitleStart(old(Abstract()), Cfg())
    {
      model.ClearInventory();
      ShowInventoryChoice();
    }

    /** `showInventoryChoice`: the preset scene, or `start` when it is missing. */
    method ShowInventoryChoice()
      requires Valid()
      modifies this, model
      ensures Valid()
      ensures var choice := Lookup(Cfg(), Some(InventoryChoiceId));
              Abstract() == Enter(old(Abstract()), if choice.Some? then choice else Lookup(Cfg(), Some(StartId)))
    {
      var scene := loader.GetSceneById(Some(InventoryChoiceId));
      LookupAgrees(Some(InventoryChoiceId));
      LookupAgrees(Some(StartId));
      if scene != null {
        ShowSceneView(scene);
      } else {
        ShowSceneView(loader.GetSceneById(Some(StartId)));
      }
    }

    /** The theme toggle of the title and instructions views: no view is re-entered. */
    method OnMenuToggleTheme()
      requires Valid()
      modifies this, model
      ensures Valid()
      ensures Abstract() == old(Abstract()).(darkMode := !old(Abstract()).darkMode)
    {
      model.ToggleDarkMode();
    }

    /** The title's instructions button. */
    method OnShowInstructions()
      requires Valid()
      modifies this, model
      ensures Valid()
      ensures Abstract() == old(Abstract()).(state := Instructions)
    {
      model.SetCurrentState(Instructions);
      UpdateView();
    }

    /** The instructions' back button. */
    method OnBackToTitle()
      requires Valid()
      modifies this, model
      ensures Valid()
      ensures Abstract() == Traversal.UpdateView(old(Abstract()).(state := Title), Cfg())
    {
      model.SetCurrentState(Title);
      UpdateView();
    }
  }
}
