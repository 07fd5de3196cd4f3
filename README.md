# Zombie Choice Game — a Dafny model of its rule layer

Zombie Choice Game is a JavaFX choose-your-own-adventure game. A story is a list of scenes.
Each scene has:

- a prompt and choices that lead to other scenes;
- optionally a health change applied on entry;
- optionally an item granted on entry;
- optionally a threat level that enables a "Fight" choice.

The player has health from 0 to 100 and an inventory. The inventory is split into three
categories (weapons, consumables, key items), and each category has a capacity.

Around the game sit three more pieces:

- save slots;
- a photo album of the winning endings reached;
- a Python script that checks and repairs the scene ids and typography of a story file.

This project models that rule layer and proves what it promises.

- `java_int.dfy` (`JavaInt`): Java's 32-bit `int` addition, multiplication and negation, with
  wrap-around.
- `wrappers.dfy` (`Wrappers`): `Option` and `Result`.
- `text.dfy` (`Text`): `toLowerCase`, `equalsIgnoreCase` and `startsWith` on ASCII letters.
- `items.dfy` (`Items`):
  - item categories and game states;
  - the item record and the capacity table.
- `inventory.dfy` (`Inventory`): the inventory as a map from category to list, and the pure
  meaning of each `GameModel` inventory operation:
  - capacity-checked add;
  - removal by name across categories in map order;
  - removal of one occurrence.
- `game_model.dfy` (`PlayerModel`): the `GameModel` class. It has fields for health, theme, state
  and inventory, and its methods update them in place.
- `combat.dfy` (`Combat`):
  - weapon selection, the weakest sufficient weapon with ties to the earliest;
  - the durability and health penalties;
  - who wins a fight.
- `game_scene.dfy` (`Scenes`): the `GameChoice` and `GameScene` classes, with their defaults
  and setters.
- `scene_loader.dfy` (`Loader`): `SceneLoader` over already-parsed story records.
  - Missing fields get their defaults.
  - A choice's next id comes from `nextId`, else from `id`.
  - When two records share an id, the later one wins.
  - Lookup of an unknown id gives `null`.
- `session.dfy` (`Traversal`): the scene-traversal state machine of `MainController` as pure
  transitions over an abstract session. The session holds the player state, the health
  marker, the processed-item set, the current scene and the queued weapon-removal dialogs.
- `session_facts.dfy` (`TraversalFacts`): the properties of those transitions:
  - re-entry idempotence;
  - the fight-result exemption;
  - at-most-once item grants;
  - fight dispatch and routing;
  - preset inventories;
  - weapon swap.
- `main_controller.dfy` (`Controller`): the `MainController` class. Each handler mutates the
  controller's fields and the `GameModel`. Each handler is proved to move the abstract session
  exactly as the matching `Traversal` function does.
- `save_manager.dfy` (`Saves`): `SaveManager` over a store from slot number to slot file, plus
  the `SaveData` record.
- `sanitizer.dfy` (`StorySanitizer`): the story-file script:
  - id validation;
  - id sanitising in "underscore" and "remove" modes;
  - the consistent rewrite of scene ids and choice ids;
  - the typographic replacement table.
- `album.dfy` (`Album`): the winning-photo album:
  - extraction of WIN ending ids from a story;
  - the order-preserving split into unlocked and locked groups;
  - display titles and title overrides.

Where the classes and the pure functions disagree with the comments in the source, the code
is followed.

The source calls some methods that it does not define: `clearInventory`, `reloadInventory`,
`resetHealth`, `decreaseDurability`, `isWeapon`, `isConsumable`, `getPower`, `getDurability`
and `getHealthRestore`. The model gives them these assumed meanings:

- `clearInventory` empties every category.
- `reloadInventory` clears, then adds the default inventory with capacity checks.
- `resetHealth` sets health to 100.
- `decreaseDurability(n)` lowers durability by `n`.
- `isWeapon` and `isConsumable` test the item's category.
- The getters read the item's fields.

No proved property depends on anything beyond these assumed meanings.

## Model

| member | source | states |
|---|---|---|
| JavaInt.Add | src/controller/MainController.java:381-389 | Java `int` addition: always a 32-bit value, and the exact sum whenever the sum fits |
| JavaInt.Mul | src/controller/MainController.java:386-389 | Java `int` multiplication: a 32-bit value, exact when the product fits |
| JavaInt.Neg | src/controller/MainController.java:354 | Java `int` negation: a 32-bit value, exact except for the minimum value |
| Text.ToLower | src/controller/MainController.java:395 | lower-casing keeps the length and maps each character to its lower-case form |
| Text.EqualsIgnoreCaseIsLowerEquality | src/controller/MainController.java:165 | `equalsIgnoreCase` holds exactly when the lower-cased strings are equal |
| Items.Capacity | src/model/GameModel.java:13-15 | capacity is 2 for weapons, 3 for consumables, 1 for key items |
| Items.DecreaseDurability | src/controller/MainController.java:351 | only the durability changes, lowered by the amount; name, kind, power and restore value are kept |
| Inventory.EmptyInventory | src/model/GameModel.java:20-23 | the constructor's map: every category present with an empty list, which is a valid inventory |
| Inventory.TryAdd | src/model/GameModel.java:66-82 | an add succeeds exactly when the item's category is below capacity. It appends to the end of that list, touches no other category, leaves the inventory unchanged on rejection, and keeps the inventory valid |
| Inventory.AddAllValid | src/model/GameModel.java:27-29 | no sequence of `addItem` calls pushes any category above its capacity |
| Inventory.AddAllCategory | src/model/GameModel.java:27-29 | after a sequence of adds, each category holds its old items followed by the first items of that category from the sequence, as many as there was room for |
| Inventory.AddAllFolds | src/model/GameModel.java:27-29 | a sequence of adds, seen from one category, is a step-by-step fill of that category's list |
| Inventory.FillSpec | src/model/GameModel.java:78-80 | the step-by-step fill equals the old list plus the first items of that category that fit |
| Inventory.AddAllPrefix | src/model/GameModel.java:27-29 | adding the items one by one in a loop agrees with the sequence of adds after every step |
| Inventory.OfKind | src/model/GameModel.java:70 | the items of one category, in order, drawn from the input |
| Inventory.OfKindCounts | src/model/GameModel.java:70 | the filter keeps every item of the category as often as it occurs and drops every other item |
| Inventory.OfKindAppend | src/model/GameModel.java:70 | filtering a concatenation is the concatenation of the filtered parts, so order is kept |
| Inventory.TakeUpTo | src/model/GameModel.java:78 | the longest prefix of at most `n` items: the whole list when it is short, exactly the first `n` items otherwise |
| Inventory.WithoutNamed | src/model/GameModel.java:86 | `removeIf` by name: exactly the items with another name remain; it shrinks exactly when a match exists, and is the identity otherwise |
| Inventory.WithoutNamedCounts | src/model/GameModel.java:86 | every item with another name remains as often as it occurs, and no item with the name remains |
| Inventory.WithoutNamedAppend | src/model/GameModel.java:86 | removing by name from a concatenation is the concatenation of the parts with the name removed, so order is kept |
| Inventory.RemoveByName | src/model/GameModel.java:84-89 | removal succeeds exactly when some category holds the name. On success, every item with that name goes from the first such category in map order, and from nothing else. On failure nothing changes |
| Inventory.RemoveByNameAt | src/model/GameModel.java:85-87 | once the first category holding the name is known, the result is fixed |
| Inventory.RemoveByNameValid | src/model/GameModel.java:84-89 | removal by name keeps the inventory valid |
| Inventory.RemoveFirst | src/model/GameModel.java:99 | `List.remove(Object)`: drops the first occurrence if there is one, else the identity |
| Inventory.RemoveOne | src/model/GameModel.java:98-102 | drops one occurrence from the first category in map order that holds the item, or changes nothing when none does |
| Inventory.RemoveOneValid | src/model/GameModel.java:98-102 | removing one occurrence keeps the inventory valid |
| Inventory.RemoveFromOwn | src/model/GameModel.java:108-110 | only the item's own category changes: its first occurrence there is dropped |
| Inventory.Cleared | src/controller/MainController.java:393 | after the assumed `clearInventory`, every category is empty |
| Inventory.WearWeapon | src/controller/MainController.java:350-352 | only the chosen weapon changes, and it loses exactly the given durability; other weapons and categories are kept |
| Inventory.Names | src/controller/MainController.java:134-136 | the weapon names, in list order |
| PlayerModel.Clamp | src/model/GameModel.java:49 | the result is in 0..100, equal to the input inside that range and the nearest bound outside it |
| PlayerModel.Healed | src/model/GameModel.java:56-64 | `health += amount` then a clamp: the result is always in 0..100, and is the clamped sum when the Java sum does not overflow |
| PlayerModel.GameModel.constructor | src/model/GameModel.java:17-30 | light theme, TITLE state, health 100, and the initial items added one by one with capacity checks into empty categories |
| PlayerModel.GameModel.ToggleDarkMode | src/model/GameModel.java:36-38 | the theme flag is negated and nothing else changes |
| PlayerModel.GameModel.SetCurrentState | src/model/GameModel.java:44-46 | the state is replaced and nothing else changes |
| PlayerModel.GameModel.SetHealth | src/model/GameModel.java:48-50 | health becomes the clamped value and nothing else changes |
| PlayerModel.GameModel.SubtractHealth | src/model/GameModel.java:56-59 | health becomes old health plus the signed amount, clamped; a negative amount is damage |
| PlayerModel.GameModel.AddHealth | src/model/GameModel.java:61-64 | the same new health as `SubtractHealth`, for every input |
| PlayerModel.GameModel.AddItem | src/model/GameModel.java:66-82 | the new inventory and the returned flag are those of `TryAdd`; health, theme and state are kept |
| PlayerModel.GameModel.RemoveItem | src/model/GameModel.java:84-89 | the new inventory and the flag are those of `RemoveByName` in the map's visiting order |
| PlayerModel.GameModel.ConsumeItem | src/model/GameModel.java:95-106 | returns true exactly for a consumable. Then health gains its restore value, clamped, and one occurrence is removed in map order, and the result is true even if no list held it. Otherwise nothing changes |
| PlayerModel.GameModel.RemoveFromInventory | src/model/GameModel.java:108-110 | the inventory becomes `RemoveFromOwn` of the old one |
| PlayerModel.GameModel.ClearInventory | src/controller/MainController.java:64 | every category is emptied; health, theme and state are kept |
| PlayerModel.GameModel.ResetHealth | src/controller/MainController.java:198 | health returns to 100; nothing else changes |
| PlayerModel.GameModel.ReloadInventory | src/controller/MainController.java:57 | the inventory becomes the default items added one by one with capacity checks |
| PlayerModel.GameModel.DecreaseWeaponDurability | src/controller/MainController.java:351 | the weapon at the index is worn as by `WearWeapon`, and nothing else changes |
| Combat.DurabilityDecrease | src/controller/MainController.java:376-379 | the decrease is 2 exactly when the threat is at least 5, else 1 |
| Combat.WinHealthPenalty | src/controller/MainController.java:381-384 | 10 plus the threat as a Java `int`; exact when it does not overflow |
| Combat.LoseHealthPenalty | src/controller/MainController.java:386-389 | 25 plus twice the threat as a Java `int`; exact when it does not overflow |
| Combat.LosingCostsMore | src/controller/MainController.java:381-389 | for every threat a scene can carry, the loss penalty exceeds the win penalty, and both are positive |
| Combat.ChooseWeapon | src/controller/MainController.java:343-347 | no weapon is chosen exactly when none has power at least the threat and durability above 0. Otherwise the chosen one qualifies, has the least power among those that qualify, and every earlier one that qualifies is strictly stronger (the stable sort) |
| Combat.ChooseWeaponUnique | src/controller/MainController.java:343-347 | those properties determine the chosen weapon: any weapon that has them is the one chosen |
| Combat.WinsIff | src/controller/MainController.java:349-372 | a fight is won exactly when some weapon qualifies or fists (power 2) reach the threat |
| Scenes.GameChoice.constructor | src/model/GameChoice.java:10-16 | the four given fields are stored unchanged and `currentSceneId` starts as null |
| Scenes.GameChoice.SetCurrentSceneId | src/model/GameChoice.java:34-36 | only `currentSceneId` changes, to the value given |
| Scenes.GameScene.WithChoices | src/model/GameScene.java:10-14 | the given fields are stored; health change 0, no item, threat -1, fight number 1 |
| Scenes.GameScene.WithHealthChange | src/model/GameScene.java:16-21 | the given fields are stored; no item, threat -1, fight number 1 |
| Scenes.GameScene.WithItem | src/model/GameScene.java:23-29 | the given fields are stored, including the item; threat -1, fight number 1 |
| Scenes.GameScene.WithThreat | src/model/GameScene.java:31-38 | the given fields are stored, including the threat; fight number 1 |
| Scenes.GameScene.SetFightNumber | src/model/GameScene.java:59-61 | only the fight number changes |
| Scenes.GameScene.SetThreatLevel | src/model/GameScene.java:71-73 | only the threat level changes |
| Loader.NextIdOf | src/model/SceneLoader.java:26-27 | the next id is `nextId` when present, else `id` when present, else null. It is defined only when no key it reads holds a JSON null |
| Loader.Ids | src/model/SceneLoader.java:16 | the scene ids of the records, in file order |
| Loader.LastIndex | src/model/SceneLoader.java:34 | each id in the list maps to the position of its last occurrence, and nothing else is mapped |
| Loader.BuildChoices | src/model/SceneLoader.java:19-32 | one new choice per record, in order. Each has its defaults, a next id from `NextIdOf`, and `currentSceneId` set to the enclosing scene's id |
| Loader.SceneLoader.Empty | src/model/SceneLoader.java:37-39 | after an `IOException` the scene map is empty |
| Loader.SceneLoader.FromRecords | src/model/SceneLoader.java:14-35 | the keys are exactly the record ids. Each id holds a new scene built from the last record with that id, through the four-argument constructor (threat -1, no item) |
| Loader.SceneLoader.GetSceneById | src/model/SceneLoader.java:42-44 | null exactly for a null or unknown id, otherwise the scene stored under it |
| Loader.NewSceneLoader | src/model/SceneLoader.java:11-40 | an unreadable file gives an empty loader. The constructor throws on a malformed file, on a record missing a required field, and on a JSON null under a key it reads after `has()` (`healthChange`, `nextId`, `id` when `nextId` is missing, `healthEffect`). Otherwise the loader is built from the records as above |
| Saves.PathForSlot | src/model/SaveManager.java:19-22 | a path exists exactly for slots 1..3 and is `src/data/saves/slot<n>.json`; any other slot is an error |
| Saves.PathsDistinct | src/model/SaveManager.java:19-22 | distinct slots have distinct files |
| Saves.SaveManager.Exists | src/model/SaveManager.java:32-35 | an error outside 1..3, else whether the slot file is present |
| Saves.SaveManager.Load | src/model/SaveManager.java:57-70 | an error outside 1..3. A record exactly when the file is present and parses to one, and then it is that record. Empty for a missing, unparseable or null file |
| Saves.SaveManager.PeekPlayerName | src/model/SaveManager.java:72-74 | the loaded record's player name, empty when there is no record or the name is null |
| Saves.SaveManager.PeekSceneId | src/model/SaveManager.java:76-78 | the loaded record's scene id, empty when there is no record or the id is null |
| Saves.SaveManager.Save | src/model/SaveManager.java:46-55 | an error outside 1..3. A clean write overwrites the slot, so a following load returns the record. A failed open keeps the old file, and a part-way write leaves an unparseable file. No fault is reported and no other slot changes |
| Saves.SaveManager.Delete | src/model/SaveManager.java:37-44 | an error outside 1..3. A successful delete makes the slot absent, and an absent slot stays absent. A failing delete changes nothing and is not reported. Other slots are unchanged |
| StorySanitizer.ChoicesOf | validate_and_sanitize_json.py:21 | a missing `choices` key reads as the empty list |
| StorySanitizer.Piece | validate_and_sanitize_json.py:13 | an allowed character is kept; any other becomes `_` in underscore mode and nothing in remove mode |
| StorySanitizer.SanitizeId | validate_and_sanitize_json.py:27-31 | the result has only `[A-Za-z0-9_]`. In underscore mode it keeps the length and replaces each disallowed character by `_`. In remove mode it never grows. It is the identity on allowed ids |
| StorySanitizer.SanitizeIdConcat | validate_and_sanitize_json.py:27-31 | sanitising works character by character: it distributes over concatenation |
| StorySanitizer.RemoveKeepsAllowed | validate_and_sanitize_json.py:30-31 | remove mode keeps exactly the allowed characters, in order |
| StorySanitizer.SanitizeIdIdempotent | validate_and_sanitize_json.py:27-31 | sanitising twice is sanitising once |
| StorySanitizer.UnderscoreIdMatches | validate_and_sanitize_json.py:12 | a non-empty id sanitised in underscore mode passes `ID_RE` |
| StorySanitizer.FindIds | validate_and_sanitize_json.py:15-25 | the issues reported are those of the scene-then-choice specification, in order |
| StorySanitizer.ChoiceIssueIff | validate_and_sanitize_json.py:21-24 | a choice issue at (i, j) with value v is reported exactly when choice j has string id v that fails `ID_RE`; every choice issue is located in its scene |
| StorySanitizer.SceneIssueIff | validate_and_sanitize_json.py:17-20 | a scene issue at i with value v is reported exactly when scene i has string id v that fails `ID_RE` |
| StorySanitizer.ChoiceIdIssueIff | validate_and_sanitize_json.py:15-25 | over the whole story, a choice issue at (i, j) is reported exactly when that choice's string id fails `ID_RE` |
| StorySanitizer.SceneKindAt | validate_and_sanitize_json.py:20 | a scene issue always carries a scene location |
| StorySanitizer.ChoiceKindAt | validate_and_sanitize_json.py:24 | a choice issue always carries a choice location |
| StorySanitizer.Changed | validate_and_sanitize_json.py:34-47 | the mapping holds exactly the ids that sanitising changes, each mapped to its sanitised form |
| StorySanitizer.SanitizeValue | validate_and_sanitize_json.py:44-47 | a string id is sanitised; a non-string id is left alone |
| StorySanitizer.SanitizeChoice | validate_and_sanitize_json.py:52-55 | only a choice's `id` changes; `label` and `nextId` are kept |
| StorySanitizer.SanitizeScene | validate_and_sanitize_json.py:48-55 | the scene id and each choice id are sanitised, and the prompt and the number of choices are kept |
| StorySanitizer.Rewrites | validate_and_sanitize_json.py:50-55 | looking an id up in the mapping and replacing it gives the sanitised value |
| StorySanitizer.ApplySanitization | validate_and_sanitize_json.py:33-56 | the mapping is exactly the changed ids of the story, and each scene becomes its sanitised form |
| StorySanitizer.CollectMapping | validate_and_sanitize_json.py:34-47 | the two collection loops build exactly the changed-id mapping |
| StorySanitizer.CollectChoiceIds | validate_and_sanitize_json.py:42-47 | the inner loop over one scene's choices extends the mapping to exactly the changed ids among the ids seen so far plus those choices |
| StorySanitizer.RewriteScene | validate_and_sanitize_json.py:48-55 | the rewrite through the mapping equals direct sanitising |
| StorySanitizer.LinksPreserved | validate_and_sanitize_json.py:48-55 | a choice id equal to a scene id still equals it afterwards, and `nextId` is untouched |
| StorySanitizer.NoIssuesAfterUnderscore | validate_and_sanitize_json.py:15-56 | after underscore-mode sanitising, `find_ids` reports no issue for any non-empty id |
| StorySanitizer.TableShape | validate_and_sanitize_json.py:66-104 | every key of `REPLACEMENTS` is a non-ASCII character, and every value is ASCII |
| StorySanitizer.ReplaceAll | validate_and_sanitize_json.py:111-112 | `str.replace` removes every occurrence of a key not in the value, introduces only value characters, and is the identity when the key is absent |
| StorySanitizer.NoKeyRemainsAfter | validate_and_sanitize_json.py:110-112 | after the first n entries of any well-shaped table, none of their keys remains |
| StorySanitizer.NoKeyRemains | validate_and_sanitize_json.py:106-113 | no key of `REPLACEMENTS` remains after the replacement pass |
| StorySanitizer.AsciiUnchangedAfter | validate_and_sanitize_json.py:110-112 | an ASCII string passes through any well-shaped table unchanged |
| StorySanitizer.AsciiTextUnchanged | validate_and_sanitize_json.py:106-113 | an ASCII string that NFC leaves alone is returned unchanged |
| StorySanitizer.SanitizeAscii | validate_and_sanitize_json.py:106-113 | a non-string is returned as is. A string is NFC-normalised and then passed through the whole table |
| StorySanitizer.TextSanitized | validate_and_sanitize_json.py:115-122 | only string `prompt` fields and string choice `label` fields change; ids and `nextId` are kept |
| StorySanitizer.ApplyTextSanitization | validate_and_sanitize_json.py:115-122 | each scene of the array becomes its text-sanitised form |
| StorySanitizer.CleanScene | validate_and_sanitize_json.py:116-122 | one scene's prompt and choice labels are cleaned as `TextSanitized` states |
| Album.AsString | src/view/WinningPhotoAlbumView.java:374-376 | Gson's `getAsString` gives the text of a string. It throws on null, on an object, and on an array that does not hold exactly one element |
| Album.StepOf | src/view/WinningPhotoAlbumView.java:371-378 | an id is taken only from a JSON object whose `ending` reads as a string equal to "WIN" ignoring case. A non-object, or an object without `ending`, is skipped |
| Album.CollectedIdsAreWins | src/view/WinningPhotoAlbumView.java:371-378 | every collected id comes from a record that yields it |
| Album.WinsBeforeThrowCollected | src/view/WinningPhotoAlbumView.java:371-383 | every win record before the first exception is collected |
| Album.ThrowEndsScan | src/view/WinningPhotoAlbumView.java:380-383 | an exception ends the scan: the result is what was collected before it |
| Album.GetWinningSceneIds | src/view/WinningPhotoAlbumView.java:367-384 | the loop returns exactly the win ids of the story |
| Album.UnderscoresToSpaces | src/view/WinningPhotoAlbumView.java:325 | each `_` becomes a space and the length is kept |
| Album.DisplayTitle | src/view/WinningPhotoAlbumView.java:325 | a null id gives "". Otherwise the title override is used when present, else the id with underscores as spaces |
| Album.PartitionIff | src/view/WinningPhotoAlbumView.java:137-184 | an id is unlocked exactly when it is completed and locked exactly when not. Together the two groups are a permutation of the win ids |
| Album.CompletedSet | src/view/WinningPhotoAlbumView.java:117-120 | the completed set is the completed list's elements; a null list counts as empty |
| Album.Photos | src/view/WinningPhotoAlbumView.java:189 | one photo per id, in order |
| Album.LabelTextsMeaning | src/view/WinningPhotoAlbumView.java:159-178 | every win id gets a label. A locked one gets "", an unlocked one its display title |
| Album.WinningPhotoAlbum.constructor | src/view/WinningPhotoAlbumView.java:115-195 | the win ids come from the story and the groups come from the completed list. The "none" message shows exactly when there are no win ids, and then there is no photo row. Otherwise the row is the unlocked photos, then a spacer only when both groups are non-empty, then the locked photos |
| Album.WinningPhotoAlbum.AddPhotos | src/view/WinningPhotoAlbumView.java:137-184 | the loop builds exactly the two groups and the label texts |
| Album.WinningPhotoAlbum.CreateDisplayLabelForSceneId | src/view/WinningPhotoAlbumView.java:324-332 | the scene's label is recorded with its display title |
| Album.WinningPhotoAlbum.SetTitleForSceneId | src/view/WinningPhotoAlbumView.java:334-339 | a null argument changes nothing. Otherwise the override is stored and an existing label shows the new title |
| Album.WinningPhotoAlbum.SetTitles | src/view/WinningPhotoAlbumView.java:341-348 | a null or empty map changes nothing. Otherwise all overrides are merged in, every existing label for a key shows its new title, and no label is created |
| Traversal.Lookup | src/model/SceneLoader.java:42-44 | a scene is found exactly for a known id, and it is the one stored under that id |
| Traversal.EntryHealth | src/controller/MainController.java:114-126 | the marker becomes the scene id. The health change is applied only when the marker differed and the id does not start with `fight_result`. Nothing else changes |
| Traversal.EntryGrant | src/controller/MainController.java:128-146 | the item is offered to `addItem`. A weapon that does not fit queues a removal dialog with the weapon names, and the scene stays unmarked. Any other outcome marks the scene processed |
| Traversal.Enter | src/controller/MainController.java:111-146 | the scene becomes current and theme and state are kept. A null scene changes nothing else, because the call throws. Otherwise the scene becomes the health marker and the health is the one its health change leaves (`EntryHealth`). Inventory, processed set and dialogs are untouched when the scene grants no item or was processed before, and the grant (`EntryGrant`) is applied otherwise. Player soundness is kept |
| Traversal.UpdateView | src/controller/MainController.java:43-53 | TITLE reloads the default inventory and clears the processed set. FIRST_CHOICE enters `start`, or goes to ENDING when `start` is unknown. INSTRUCTIONS and ENDING change nothing |
| Traversal.PresetFor | src/controller/MainController.java:395-419 | the lower-cased label selects the health-heavy, attack-heavy or balanced preset; any other label selects nothing |
| Traversal.ApplyInventoryChoice | src/controller/MainController.java:391-421 | only the inventory changes: cleared, then filled from the chosen preset with capacity checks |
| Traversal.AfterFight | src/controller/MainController.java:339-373 | only health and inventory change. A win costs the win penalty and a loss the loss penalty, clamped. A chosen weapon loses the durability decrease; without one the inventory is kept |
| Traversal.FightRoute | src/controller/MainController.java:349-372 | the route is `fight_result_win_1` exactly for a win and `fight_result_lose_1` exactly for a loss |
| Traversal.HandleFight | src/controller/MainController.java:339-374 | the fight keeps the player state sound |
| Traversal.Choose | src/controller/MainController.java:154-181 | with no current scene the handler is never reached, so nothing changes; every choice keeps the player state sound |
| Traversal.Consume | src/controller/MainController.java:204-215 | a refused item changes nothing; a consumed one keeps the player state sound |
| Traversal.ToggleTheme | src/controller/MainController.java:182-185 | the theme flips, and re-rendering keeps the player state sound |
| Traversal.Reset | src/controller/MainController.java:186-203 | a declined reset changes nothing. A confirmed one clears both markers, restores health, shows TITLE and reloads the default inventory |
| Traversal.RemovalDialog | src/controller/MainController.java:299-337 | a cancelled chooser drops the dialog. A declined confirmation queues the same dialog again. Every answer keeps the player state sound |
| Traversal.ConfirmRemoval | src/controller/MainController.java:315-331 | a confirmed removal keeps the player state sound |
| Traversal.Restocked | src/controller/MainController.java:316-323 | the named items are removed and the new item is added, and its scene is marked processed; nothing else changes |
| Traversal.TitleStart | src/controller/MainController.java:63-67 | the start button keeps the player state sound |
| TraversalFacts.ReentryIsIdempotent | src/controller/MainController.java:111-146 | when entering a scene queued no weapon dialog, entering it again straight away changes nothing more |
| TraversalFacts.MarkedEntryKeepsHealth | src/controller/MainController.java:115-126 | re-entering the scene that is already the health marker leaves the health as it is |
| TraversalFacts.ConsumeHealsOnly | src/controller/MainController.java:204-211 | consuming an item on the current scene sets the health to exactly the healed value; the re-render applies no second health change |
| TraversalFacts.ToggleAfterEntry | src/controller/MainController.java:182-185 | after an entry that queued no dialog, toggling the theme flips the theme and changes nothing else |
| TraversalFacts.RevisitReappliesChange | src/controller/MainController.java:115-126 | after leaving for another scene, coming back applies the scene's health change again |
| TraversalFacts.FightResultExempt | src/controller/MainController.java:118-125 | a `fight_result` scene never changes health on entry, yet it becomes the marker |
| TraversalFacts.GrantAtMostOnce | src/controller/MainController.java:129 | entering a processed scene changes neither the inventory, nor the processed set, nor the dialog queue |
| TraversalFacts.FirstEntryMarks | src/controller/MainController.java:128-146 | on first entry the scene stays unmarked exactly when its item is a weapon whose category is full. A full category keeps the inventory, otherwise the item is appended. An unmarked scene queues a dialog |
| TraversalFacts.WinRouteIsFightResult | src/controller/MainController.java:357-371 | both fight routes start with `fight_result` |
| TraversalFacts.FightCostsOnlyThePenalty | src/controller/MainController.java:339-374 | after a fight, health has dropped by the win or loss penalty and nothing more; the result scene's own health change is skipped |
| TraversalFacts.FightPenaltiesWithoutOverflow | src/controller/MainController.java:381-389 | for threats up to 1000 the health after a fight is the clamp of health minus 10+T, or minus 25+2T |
| TraversalFacts.FightDispatch | src/controller/MainController.java:165-171 | a scene with a threat above -1 and a label equal to "Fight" ignoring case goes to the fight |
| TraversalFacts.UnknownNextEnds | src/controller/MainController.java:172-179 | any other choice with a null or unknown next id sets ENDING, which `updateView` does not render |
| TraversalFacts.KnownNextEnters | src/controller/MainController.java:172-175 | any other choice with a known next id enters that scene |
| TraversalFacts.PresetFillsCategories | src/controller/MainController.java:391-419 | each category ends up holding the first items of that category in the chosen preset, as many as fit |
| TraversalFacts.OtherLabelEmpties | src/controller/MainController.java:417-418 | a label naming no preset leaves every category empty |
| TraversalFacts.ConfirmedRemovalMakesRoom | src/controller/MainController.java:315-323 | confirming the removal of a weapon name makes room: the new weapon is in the weapon list and its scene is marked processed |
| Controller.CollectNames | src/controller/MainController.java:134-136 | the loop returns the weapon names in list order |
| Controller.MainController.LookupAgrees | src/controller/MainController.java:173 | the loader's lookup and the session's lookup agree on every id |
| Controller.MainController.constructor | src/controller/MainController.java:28-33 | a new player model with its initial state, no markers, no current scene and no dialogs |
| Controller.MainController.StartApp | src/controller/MainController.java:35-41 | starting the app moves the session as `updateView` does |
| Controller.MainController.UpdateView | src/controller/MainController.java:43-53 | the fields change exactly as `Traversal.UpdateView` states |
| Controller.MainController.ShowTitleView | src/controller/MainController.java:55-58 | the inventory becomes the default one and the processed set empties; nothing else changes |
| Controller.MainController.ShowFirstChoiceView | src/controller/MainController.java:98-109 | `start` is entered, or ENDING is set when it is unknown |
| Controller.MainController.ShowSceneView | src/controller/MainController.java:111-146 | the fields change exactly as `Traversal.Enter` states |
| Controller.MainController.OnChoice | src/controller/MainController.java:154-181 | the choice handler moves the session exactly as `Traversal.Choose` |
| Controller.MainController.HandleFight | src/controller/MainController.java:339-374 | the fight moves the session exactly as `Traversal.HandleFight` |
| Controller.MainController.ApplyInventoryChoice | src/controller/MainController.java:391-421 | the loop leaves the session exactly as `Traversal.ApplyInventoryChoice` |
| Controller.MainController.OnConsume | src/controller/MainController.java:204-215 | the consume handler moves the session exactly as `Traversal.Consume` |
| Controller.MainController.OnToggleTheme | src/controller/MainController.java:182-185 | the toggle handler moves the session exactly as `Traversal.ToggleTheme` |
| Controller.MainController.OnReset | src/controller/MainController.java:186-203 | the reset handler moves the session exactly as `Traversal.Reset` |
| Controller.MainController.OnRemovalDialog | src/controller/MainController.java:299-337 | answering the oldest queued dialog moves the session exactly as `Traversal.RemovalDialog` |
| Controller.MainController.ConfirmPendingRemoval | src/controller/MainController.java:315-331 | a confirmed removal moves the session exactly as `Traversal.ConfirmRemoval` |
| Controller.MainController.OnTitleStart | src/controller/MainController.java:63-67 | the start button moves the session exactly as `Traversal.TitleStart` |
| Controller.MainController.ShowInventoryChoice | src/controller/MainController.java:435-443 | `inventory_choice` is entered when known, else `start` |
| Controller.MainController.OnMenuToggleTheme | src/controller/MainController.java:74-77 | the title and instruction screens' toggle flips the theme only |
| Controller.MainController.OnShowInstructions | src/controller/MainController.java:69-72 | the state becomes INSTRUCTIONS and nothing else changes |
| Controller.MainController.OnBackToTitle | src/controller/MainController.java:90-93 | the state becomes TITLE and the title view is shown |

## Left out

- All JavaFX presentation:
  - views, layout, styling, images and effects;
  - window resizing;
  - the album's double-based scroll handler;
  - `getImagePathForSceneId`;
  - the player label.
- File side effects in `MainController`: `writeTempWeaponJson`, `addWeaponToJson`,
  `removeWeaponFromJson`, `resetInventoryToDefault` and `loadInventoryFromJson`. The default
  and preset inventory files become fixed inputs (`Config`). The file copy is assumed to
  succeed.
- Dialogs and `Platform.runLater`. Each answer is a parameter: the picked weapon (none when
  cancelled), whether the confirmation or reset was accepted, and whether the item was
  consumed. Queued dialogs are a FIFO list, answered one at a time.
- Gson and JSON parsing. Stories, choice records and save files are already-parsed values.
  - In the scene loader and the save records, Gson's coercion of numbers and booleans to
    strings is not modelled. The album's title file does model it (`Album.AsString`).
  - A JSON null inside a list field is not modelled.
  - `InventoryLoader` (file I/O that returns an empty list on error) becomes the
    `initialItems` parameter.
- `SaveManager.ensureDir`: directory creation is not modelled.
- A part-way write, which is modelled as an unparseable file.
- `loadTitlesFromJson`, which is album file I/O.
- Album.WinningPhotoAlbum.SetTitles and Album.WinningPhotoAlbum.SetTitleForSceneId: labels are
  a map keyed by scene id, as in the Java code. A win id listed twice has two labels on
  screen, and the Java code retitles only the one created last, because `put` replaced the
  first (`src/view/WinningPhotoAlbumView.java:330`). The model does not keep the label
  created first, so it cannot show that this label keeps its old title.
- Album.WinningPhotoAlbum.CreateDisplayLabelForSceneId takes a non-null id. The Java code also
  accepts `null`: it shows an empty title and stores the label under the `null` key.
- Item identity: items are values, so `List.remove(Object)` and durability wear treat equal
  items as the same item, and the aliasing of one item object in several lists is not
  captured.
- `HashMap` visiting order: the inventory map's order is a parameter fixed at construction.
  The album applies title overrides in an arbitrary order, and the resulting state does not
  depend on it.
- Case folding covers ASCII letters only.
- Unicode NFC normalisation is a function parameter.
- `describe_chars` (`unicodedata.name`), `main` and argparse.
- In the story script:
  - scenes and choices that are not dicts;
  - `choices` values that are not lists;
  - unhashable ids.
- The choice location `"i.j"` of `find_ids` is the pair `(i, j)`.
- `apply_sanitization` rebuilds each scene as a value instead of mutating shared dicts.
- The album constructor takes a non-null save record. The Java code dereferences it at
  `src/view/WinningPhotoAlbumView.java:89` before its own null checks.
- The story path of the album is fixed in the source, so the story is a parameter.
- The scene loader only uses the four-argument `GameScene` constructor. So loaded scenes
  always have threat -1 and no item, and fights and item grants cannot happen with this
  loader. The traversal is proved for any scene map whose scenes are stored under their own
  ids.
- The assumed meanings of the methods the source calls but does not define are listed at the
  top of this file.
- Traversal.HandleFight: its own contract states only soundness. Its meaning is proved in
  `TraversalFacts.FightCostsOnlyThePenalty` and `Traversal.AfterFight`.
- Traversal.Choose: its own contract states only the no-scene case and soundness. The
  branches are proved in `TraversalFacts.FightDispatch`, `UnknownNextEnds` and
  `KnownNextEnters`.
- Traversal.Consume, Traversal.ToggleTheme, Traversal.ConfirmRemoval and Traversal.TitleStart:
  each contract states only soundness and the immediate effect. Their effect is the
  composition of `Enter`, `Restocked` and `UpdateView`, whose contracts are stated. For the
  consume and theme re-renders, `TraversalFacts.ConsumeHealsOnly` and
  `TraversalFacts.ToggleAfterEntry` state the composed effect.
