/**
 * `SceneLoader`: turns the records of the story file into `GameScene` objects indexed by
 * scene id, and looks scenes up by id. The records are taken as already parsed.
 */
module Loader {
  import opened Wrappers
  import opened Scenes

  /**
   * A key the constructor first tests with `has()`: missing, present with a JSON `null`
   * (`has()` is true, and reading the value as a string or an int throws), or present
   * with a value.
   */
  datatype Field<T> = Absent | Null | Val(v: T) {
    /** `has(key) ? get(key).getAs...() : default`, for a key that is not `null`. */
    function OrElse(default: T): T
      requires !Null?
    {
      if Val? then v else default
    }
  }

  /**
   * An element of a scene's `choices` array. For the keys read unconditionally, `None`
   * marks a key that is missing or holds `null`: reading either throws.
   */
  datatype ChoiceRecord =
    | ChoiceNotObject
    | ChoiceObject(labelText: Option<string>, imagePath: Option<string>, nextId: Field<string>,
                   id: Field<string>, healthEffect: Field<int>)

  /** An element of the story's top-level array; `None` as for `ChoiceRecord`. */
  datatype SceneRecord =
    | SceneNotObject
    | SceneObject(id: Option<string>, prompt: Option<string>, healthChange: Field<int>,
                  choices: Option<seq<ChoiceRecord>>)

  /**
   * The story file as the parser sees it: not openable (an `IOException`), not a JSON
   * array, or an array of records.
   */
  datatype StoryFile = Unreadable | Malformed | Records(records: seq<SceneRecord>)

  /** The constructor threw: the loader object is never built. */
  datatype LoadError = ConstructorThrew

  /**
   * The keys `nextId` and `id` of a choice object hold no `null` that the constructor
   * reads: `id` is read only when `nextId` is missing.
   */
  predicate NextIdReadable(c: ChoiceRecord) {
    c.ChoiceObject? && !c.nextId.Null? && (c.nextId.Absent? ==> !c.id.Null?)
  }

  /**
   * A choice record the constructor can read: an object with a label and an image path,
   * and no `null` under a key it reads after `has()`.
   */
  predicate ChoiceLoads(c: ChoiceRecord) {
    c.ChoiceObject? && c.labelText.Some? && c.imagePath.Some? &&
    NextIdReadable(c) && !c.healthEffect.Null?
  }

  /**
   * A scene record the constructor can read: an object with id, prompt and readable
   * choices, whose `healthChange` is missing or a value.
   */
  predicate SceneLoads(r: SceneRecord) {
    r.SceneObject? && r.id.Some? && r.prompt.Some? && !r.healthChange.Null? && r.choices.Some? &&
    forall i :: 0 <= i < |r.choices.value| ==> ChoiceLoads(r.choices.value[i])
  }

  predicate AllLoad(records: seq<SceneRecord>) {
    forall i :: 0 <= i < |records| ==> SceneLoads(records[i])
  }

  /** The next scene of a choice: its `nextId`, else its `id`, else `null`. */
  function NextIdOf(c: ChoiceRecord): (r: Option<string>)
    requires NextIdReadable(c)
    ensures c.nextId.Val? ==> r == Some(c.nextId.v)
    ensures c.nextId.Absent? && c.id.Val? ==> r == Some(c.id.v)
    ensures c.nextId.Absent? && c.id.Absent? ==> r == None
  {
    if c.nextId.Val? then Some(c.nextId.v)
    else if c.id.Val? then Some(c.id.v)
    else None
  }

  /** The scene id of a readable record. */
  function IdOf(r: SceneRecord): string {
    if r.SceneObject? && r.id.Some? then r.id.value else ""
  }

  /** The scene ids of the records, in file order. */
  function Ids(records: seq<SceneRecord>): (ids: seq<string>)
    ensures |ids| == |records|
    ensures forall i :: 0 <= i < |records| ==> ids[i] == IdOf(records[i])
  {
    seq(|records|, i requires 0 <= i < |records| => IdOf(records[i]))
  }

  /**
   * For every id in the sequence, the position of its LAST occurrence: the record whose
   * scene `HashMap.put` leaves in the map when ids repeat.
   */
  function LastIndex(ids: seq<string>): (m: map<string, nat>)
    ensures forall id :: id in m <==> id in ids
    ensures forall id :: id in m ==> m[id] < |ids| && ids[m[id]] == id
    ensures forall id, j :: id in m && m[id] < j < |ids| ==> ids[j] != id
    decreases |ids|
  {
    if ids == [] then map[]
    else
      var n := |ids| - 1;
      var prev := LastIndex(ids[..n]);
      assert forall id :: id in ids <==> id in ids[..n] || id == ids[n] by {
        assert ids == ids[..n] + [ids[n]];
      }
      prev[ids[n] := n]
  }

  lemma LastIndexStep(ids: seq<string>, i: nat)
    requires i < |ids|
    ensures LastIndex(ids[..i + 1]) == LastIndex(ids[..i])[ids[i] := i]
  {
    assert ids[..i + 1][..i] == ids[..i];
  }

  /** The choice object the constructor builds from a record inside scene `sceneId`. */
  ghost predicate ChoiceLoaded(c: GameChoice, r: ChoiceRecord, sceneId: string)
    reads c
  {
    ChoiceLoads(r) &&
    c.labelText == r.labelText.value && c.imagePath == r.imagePath.value &&
    c.nextId == NextIdOf(r) && c.healthEffect == r.healthEffect.OrElse(0) &&
    c.currentSceneId == Some(sceneId)
  }

  /**
   * The scene object the constructor builds from a record: the four-argument constructor,
   * so no item and no threat; health change 0 when absent; one choice per record, in order.
   */
  ghost predicate Loaded(s: GameScene, r: SceneRecord)
    reads s, s.choices
  {
    SceneLoads(r) &&
    s.id == r.id.value && s.prompt == r.prompt.value && s.healthChange == r.healthChange.OrElse(0) &&
    s.addItem == None && s.threatLevel == NoThreat && s.fightNumber == DefaultFightNumber &&
    |s.choices| == |r.choices.value| &&
    forall i :: 0 <= i < |s.choices| ==> ChoiceLoaded(s.choices[i], r.choices.value[i], s.id)
  }

  /** The inner loop of the constructor: one new choice object per record, in order. */
  method BuildChoices(sceneId: string, recs: seq<ChoiceRecord>) returns (cs: seq<GameChoice>)
    requires forall i :: 0 <= i < |recs| ==> ChoiceLoads(recs[i])
    ensures |cs| == |recs|
    ensures forall i :: 0 <= i < |cs| ==> fresh(cs[i]) && ChoiceLoaded(cs[i], recs[i], sceneId)
  {
    cs := [];
    for j := 0 to |recs|
      invariant |cs| == j
      invariant forall i :: 0 <= i < j ==> fresh(cs[i]) && ChoiceLoaded(cs[i], recs[i], sceneId)
    {
      var c := recs[j];
      var choice := new GameChoice(c.labelText.value, c.imagePath.value, NextIdOf(c), c.healthEffect.OrElse(0));
      choice.SetCurrentSceneId(Some(sceneId));
      cs := cs + [choice];
    }
  }

  class SceneLoader {
    const sceneMap: map<string, GameScene>

    /** The `IOException` path: the error is logged and the map stays empty. */
    constructor Empty()
      ensures sceneMap == map[]
    {
      sceneMap := map[];
    }

    /**
     * The loop over readable records: every record yields a new scene, and `put` lets a
     * later record with the same id replace an earlier one.
     */
    constructor FromRecords(records: seq<SceneRecord>)
      requires AllLoad(records)
      ensures sceneMap.Keys == LastIndex(Ids(records)).Keys
      ensures forall id :: id in sceneMap ==>
                fresh(sceneMap[id]) && sceneMap[id].id == id && Loaded(sceneMap[id], records[LastIndex(Ids(records))[id]])
    {
      var m: map<string, GameScene> := map[];
      for i := 0 to |records|
        invariant m.Keys == LastIndex(Ids(records)[..i]).Keys
        invariant forall id :: id in m ==>
                    LastIndex(Ids(records)[..i])[id] < i &&
                    fresh(m[id]) && m[id].id == id && Loaded(m[id], records[LastIndex(Ids(records)[..i])[id]])
      {
        var r := records[i];
        var cs := BuildChoices(r.id.value, r.choices.value);
        var scene := new GameScene.WithHealthChange(r.id.value, r.prompt.value, r.healthChange.OrElse(0), cs);
        LastIndexStep(Ids(records), i);
        m := m[r.id.value := scene];
      }
      assert Ids(records)[..|records|] == Ids(records);
      sceneMap := m;
    }

    /** `HashMap.get`: the scene stored under the id, `null` for an unknown or `null` id. */
    function GetSceneById(id: Option<string>): (s: GameScene?)
      ensures s == null <==> id.None? || id.value !in sceneMap
      ensures s != null ==> s == sceneMap[id.value]
    {
      if id.Some? && id.value in sceneMap then sceneMap[id.value] else null
    }
  }

  /**
   * The constructor seen from its caller: an unreadable file gives an empty loader, a
   * malformed file or an unreadable record makes the constructor throw.
   */
  method NewSceneLoader(file: StoryFile) returns (r: Result<SceneLoader, LoadError>)
    ensures file.Unreadable? ==> r.Success? && r.value.sceneMap == map[]
    ensures file.Malformed? ==> r.Failure?
    ensures file.Records? ==> (r.Success? <==> AllLoad(file.records))
    ensures r.Success? ==> fresh(r.value)
    ensures file.Records? && r.Success? ==>
              AllLoad(file.records) &&
              r.value.sceneMap.Keys == LastIndex(Ids(file.records)).Keys &&
              forall id :: id in r.value.sceneMap ==>
                r.value.sceneMap[id].id == id &&
                Loaded(r.value.sceneMap[id], file.records[LastIndex(Ids(file.records))[id]])
  {
    if file.Unreadable? {
      var loader := new SceneLoader.Empty();
      return Success(loader);
    } else if file.Malformed? || !AllLoad(file.records) {
      return Failure(ConstructorThrew);
    }
    var loader := new SceneLoader.FromRecords(file.records);
    return Success(loader);
  }
}
