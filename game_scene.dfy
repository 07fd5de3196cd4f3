/**
 * `GameScene` and `GameChoice`: the story's scenes and the choices they offer. Their
 * identifying fields never change after construction; a scene's threat level and fight
 * number, and a choice's current-scene id, are set in place.
 */
module Scenes {
  import opened Wrappers
  import opened Items

  /** The threat level of a scene built without one: no fight is possible. */
  const NoThreat: int := -1
  const DefaultFightNumber: int := 1

  class GameChoice {
    /** The choice's `label` (a reserved word here). */
    const labelText: string
    const imagePath: string
    /** `null` when the story record gave no next scene. */
    const nextId: Option<string>
    const healthEffect: int
    var currentSceneId: Option<string>

    constructor (labelText: string, imagePath: string, nextId: Option<string>, healthEffect: int)
      ensures this.labelText == labelText && this.imagePath == imagePath
      ensures this.nextId == nextId && this.healthEffect == healthEffect
      ensures currentSceneId == None
    {
      this.labelText := labelText;
      this.imagePath := imagePath;
      this.nextId := nextId;
      this.healthEffect := healthEffect;
      currentSceneId := None;
    }

    /** The only mutable field of a choice. */
    method SetCurrentSceneId(sceneId: Option<string>)
      modifies this
      ensures currentSceneId == sceneId
    {
      currentSceneId := sceneId;
    }
  }

  class GameScene {
    const id: string
    const prompt: string
    const healthChange: int
    const choices: seq<GameChoice>
    /** The item the scene grants on entry, `null` for none. */
    const addItem: Option<InventoryItem>
    var threatLevel: int
    var fightNumber: int

    /** The three-argument constructor: no health change, no item, no threat. */
    constructor WithChoices(id: string, prompt: string, choices: seq<GameChoice>)
      ensures this.id == id && this.prompt == prompt && this.choices == choices
      ensures healthChange == 0 && addItem == None
      ensures threatLevel == NoThreat && fightNumber == DefaultFightNumber
    {
      this.id := id;
      this.prompt := prompt;
      this.choices := choices;
      healthChange := 0;
      addItem := None;
      threatLevel := NoThreat;
      fightNumber := DefaultFightNumber;
    }

    /** The four-argument constructor, the one the scene loader uses. */
    constructor WithHealthChange(id: string, prompt: string, healthChange: int, choices: seq<GameChoice>)
      ensures this.id == id && this.prompt == prompt && this.choices == choices
      ensures this.healthChange == healthChange && addItem == None
      ensures threatLevel == NoThreat && fightNumber == DefaultFightNumber
    {
      this.id := id;
      this.prompt := prompt;
      this.healthChange := healthChange;
      this.choices := choices;
      addItem := None;
      threatLevel := NoThreat;
      fightNumber := DefaultFightNumber;
    }

    constructor WithItem(id: string, prompt: string, healthChange: int, choices: seq<GameChoice>,
                         addItem: Option<InventoryItem>)
      ensures this.id == id && this.prompt == prompt && this.choices == choices
      ensures this.healthChange == healthChange && this.addItem == addItem
      ensures threatLevel == NoThreat && fightNumber == DefaultFightNumber
    {
      this.id := id;
      this.prompt := prompt;
      this.healthChange := healthChange;
      this.choices := choices;
      this.addItem := addItem;
      threatLevel := NoThreat;
      fightNumber := DefaultFightNumber;
    }

    /** The six-argument constructor, the only one that sets a threat level. */
    constructor WithThreat(id: string, prompt: string, healthChange: int, choices: seq<GameChoice>,
                           addItem: Option<InventoryItem>, threatLevel: int)
      ensures this.id == id && this.prompt == prompt && this.choices == choices
      ensures this.healthChange == healthChange && this.addItem == addItem
      ensures this.threatLevel == threatLevel && fightNumber == DefaultFightNumber
    {
      this.id := id;
      this.prompt := prompt;
      this.healthChange := healthChange;
      this.choices := choices;
      this.addItem := addItem;
      this.threatLevel := threatLevel;
      fightNumber := DefaultFightNumber;
    }

    predicate HasAddItem() {
      addItem.Some?
    }

    method SetFightNumber(n: int)
      modifies this
      ensures fightNumber == n && threatLevel == old(threatLevel)
    {
      fightNumber := n;
    }

    method SetThreatLevel(t: int)
      modifies this
      ensures threatLevel == t && fightNumber == old(fightNumber)
    {
      threatLevel := t;
    }
  }
}
