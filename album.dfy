/**
 * The bookkeeping of the winning-photo album: which scenes of the story are wins, which of
 * them the player has completed (unlocked) and which not (locked), the order of the photo
 * row, and the titles shown under the photos. Images, effects and layout are not modelled.
 */
module Album {
  import opened Wrappers
  import opened Text

  /** A JSON value as Gson's tree model holds it. */
  datatype JsonVal =
    | JStr(s: string)
    | JNum(text: string)
    | JBool(b: bool)
    | JNull
    | JArr(elems: seq<JsonVal>)
    | JObj(fields: map<string, JsonVal>)

  /** The story file: unreadable or malformed, or parsed to a JSON value. */
  datatype StoryText = Unparsable | Parsed(root: JsonVal)

  /**
   * `JsonElement.getAsString`; `None` where it throws (a JSON null, an object, or an array
   * that does not hold exactly one element).
   */
  function AsString(v: JsonVal): (r: Option<string>)
    ensures v.JStr? ==> r == Some(v.s)
    ensures v.JNull? || v.JObj? ==> r.None?
    ensures v.JArr? && |v.elems| != 1 ==> r.None?
  {
    match v
    case JStr(s) => Some(s)
    case JNum(t) => Some(t)
    case JBool(b) => Some(if b then "true" else "false")
    case JNull => None
    case JArr(es) => if |es| == 1 then AsString(es[0]) else None
    case JObj(_) => None
  }

  /** What the scan does with one element: skip it, record a win id, or stop on an exception. */
  datatype Step = Skip | Take(id: string) | Throw

  const Ending := "ending"
  const Id := "id"
  const Win := "WIN"

  /**
   * One element of the story array: a non-object is skipped; an object whose `ending` reads
   * as a string equal to `WIN` up to case contributes its `id`; reading either field as a
   * string can throw.
   */
  function StepOf(e: JsonVal): (r: Step)
    ensures r.Take? ==> e.JObj? && Ending in e.fields && AsString(e.fields[Ending]).Some? &&
                        EqualsIgnoreCase(Win, AsString(e.fields[Ending]).value) &&
                        Id in e.fields && AsString(e.fields[Id]) == Some(r.id)
    ensures !e.JObj? || Ending !in e.fields ==> r == Skip
  {
    if !e.JObj? || Ending !in e.fields then Skip
    else match AsString(e.fields[Ending])
      case None => Throw
      case Some(ending) =>
        if !EqualsIgnoreCase(Win, ending) || Id !in e.fields then Skip
        else match AsString(e.fields[Id])
          case None => Throw
          case Some(id) => Take(id)
  }

  /** The ids taken from `elems`, in order, up to the first element that throws. */
  function CollectWins(elems: seq<JsonVal>): seq<string> {
    if elems == [] then []
    else match StepOf(elems[0])
      case Skip => CollectWins(elems[1..])
      case Take(id) => [id] + CollectWins(elems[1..])
      case Throw => []
  }

  /** `getWinningSceneIdsFromStory`: empty when the file cannot be parsed or is not an array. */
  function WinIds(story: StoryText): seq<string> {
    if story.Parsed? && story.root.JArr? then CollectWins(story.root.elems) else []
  }

  /** Every collected id comes from an element that contributes it. */
  lemma {:induction false} CollectedIdsAreWins(elems: seq<JsonVal>, x: string)
    requires x in CollectWins(elems)
    ensures exists i :: 0 <= i < |elems| && StepOf(elems[i]) == Take(x)
  {
    match StepOf(elems[0])
    case Skip =>
      CollectedIdsAreWins(elems[1..], x);
      var i :| 0 <= i < |elems[1..]| && StepOf(elems[1..][i]) == Take(x);
      assert StepOf(elems[i + 1]) == Take(x);
    case Take(id) =>
      if x != id {
        CollectedIdsAreWins(elems[1..], x);
        var i :| 0 <= i < |elems[1..]| && StepOf(elems[1..][i]) == Take(x);
        assert StepOf(elems[i + 1]) == Take(x);
      }
  }

  /** A win before the first exception is collected. */
  lemma {:induction false} WinsBeforeThrowCollected(elems: seq<JsonVal>, i: nat)
    requires i < |elems| && StepOf(elems[i]).Take?
    requires forall k :: 0 <= k < i ==> StepOf(elems[k]) != Throw
    ensures StepOf(elems[i]).id in CollectWins(elems)
  {
    if i > 0 {
      assert StepOf(elems[0]) != Throw;
      forall k | 0 <= k < i - 1
        ensures StepOf(elems[1..][k]) != Throw
      {
        assert elems[1..][k] == elems[k + 1];
      }
      WinsBeforeThrowCollected(elems[1..], i - 1);
    }
  }

  /** An exception ends the scan: nothing after the element that throws is collected. */
  lemma {:induction false} ThrowEndsScan(elems: seq<JsonVal>, i: nat)
    requires i < |elems| && StepOf(elems[i]) == Throw
    ensures CollectWins(elems) == CollectWins(elems[..i])
  {
    if i > 0 {
      assert elems[1..][..i - 1] == elems[..i][1..];
      ThrowEndsScan(elems[1..], i - 1);
    }
  }

  /** The scan loop of `getWinningSceneIdsFromStory`. */
  method GetWinningSceneIds(story: StoryText) returns (winIds: seq<string>)
    ensures winIds == WinIds(story)
  {
    winIds := [];
    if !(story.Parsed? && story.root.JArr?) {
      return;
    }
    var scenes := story.root.elems;
    var i := 0;
    while i < |scenes|
      invariant 0 <= i <= |scenes|
      invariant CollectWins(scenes) == winIds + CollectWins(scenes[i..])
    {
      assert scenes[i..][1..] == scenes[i + 1..];
      var step := StepOf(scenes[i]);
      if step.Throw? {
        return;
      }
      if step.Take? {
        winIds := winIds + [step.id];
      }
      i := i + 1;
    }
  }

  /** `sceneId.replace('_', ' ')`. */
  function UnderscoresToSpaces(s: string): (r: string)
    ensures |r| == |s|
    ensures forall i :: 0 <= i < |s| ==> r[i] == (if s[i] == '_' then ' ' else s[i])
  {
    if s == [] then [] else [if s[0] == '_' then ' ' else s[0]] + UnderscoresToSpaces(s[1..])
  }

  /** The title shown for a scene: the configured title, else the id with spaces; "" for null. */
  function DisplayTitle(titles: map<string, string>, sceneId: Option<string>): (r: string)
    ensures sceneId.None? ==> r == ""
    ensures sceneId.Some? && sceneId.value in titles ==> r == titles[sceneId.value]
    ensures sceneId.Some? && sceneId.value !in titles ==> r == UnderscoresToSpaces(sceneId.value)
  {
    match sceneId
    case None => ""
    case Some(id) => if id in titles then titles[id] else UnderscoresToSpaces(id)
  }

  /** The first `n` ids of `ids` that are in `done`, in order. */
  function Unlocked(ids: seq<string>, done: set<string>, n: nat): seq<string>
    requires n <= |ids|
  {
    if n == 0 then [] else Unlocked(ids, done, n - 1) + (if ids[n - 1] in done then [ids[n - 1]] else [])
  }

  /** The first `n` ids of `ids` that are not in `done`, in order. */
  function Locked(ids: seq<string>, done: set<string>, n: nat): seq<string>
    requires n <= |ids|
  {
    if n == 0 then [] else Locked(ids, done, n - 1) + (if ids[n - 1] in done then [] else [ids[n - 1]])
  }

  /** Every win lands in exactly one group, the unlocked ones being the completed ones. */
  lemma {:induction false} PartitionIff(ids: seq<string>, done: set<string>, n: nat)
    requires n <= |ids|
    ensures forall x :: x in Unlocked(ids, done, n) <==> x in ids[..n] && x in done
    ensures forall x :: x in Locked(ids, done, n) <==> x in ids[..n] && x !in done
    ensures multiset(Unlocked(ids, done, n)) + multiset(Locked(ids, done, n)) == multiset(ids[..n])
  {
    if n > 0 {
      PartitionIff(ids, done, n - 1);
      assert ids[..n] == ids[..n - 1] + [ids[n - 1]];
    }
  }

  /** The set of a save record's completed wins; a null list counts as empty. */
  function CompletedSet(completed: Option<seq<string>>): (done: set<string>)
    ensures forall x :: x in done <==> completed.Some? && x in completed.value
  {
    if completed.Some? then set x | x in completed.value else {}
  }

  /** An element of the photo row: a photo container, or the gap between the two groups. */
  datatype RowEntry = Photo(sceneId: string) | Spacer

  function Photos(ids: seq<string>): (r: seq<RowEntry>)
    ensures |r| == |ids| && forall i :: 0 <= i < |ids| ==> r[i] == Photo(ids[i])
  {
    if ids == [] then [] else [Photo(ids[0])] + Photos(ids[1..])
  }

  /** The label texts after the first `n` photos, each created from its id and blanked when locked. */
  function LabelTexts(ids: seq<string>, done: set<string>, n: nat): map<string, string>
    requires n <= |ids|
  {
    if n == 0 then map[]
    else LabelTexts(ids, done, n - 1)[ids[n - 1] := if ids[n - 1] in done then UnderscoresToSpaces(ids[n - 1]) else ""]
  }

  /** Every photo has a label; an unlocked one shows its title and a locked one shows nothing. */
  lemma {:induction false} LabelTextsMeaning(ids: seq<string>, done: set<string>, n: nat)
    requires n <= |ids|
    ensures forall x :: x in LabelTexts(ids, done, n) <==> x in ids[..n]
    ensures forall x :: x in LabelTexts(ids, done, n) ==>
              LabelTexts(ids, done, n)[x] == (if x in done then UnderscoresToSpaces(x) else "")
  {
    if n > 0 {
      LabelTextsMeaning(ids, done, n - 1);
      assert ids[..n] == ids[..n - 1] + [ids[n - 1]];
    }
  }

  class WinningPhotoAlbum {
    var winIds: seq<string>
    /** The photo containers of the completed wins, then those of the others. */
    var unlocked: seq<string>
    var locked: seq<string>
    /** Whether the "No winning scenes available." message replaces the photo row. */
    var showsNoneMessage: bool
    /** The photo row; none when the message is shown. */
    var photoRow: Option<seq<RowEntry>>
    var winningTitlesMap: map<string, string>
    /** `photoLabelById`, each label by its text. */
    var labelTexts: map<string, string>

    /**
     * The album for a save record whose completed list is `completed` (none when null) and
     * for the story file `story`.
     */
    constructor (completed: Option<seq<string>>, story: StoryText)
      ensures winIds == WinIds(story)
      ensures unlocked == Unlocked(winIds, CompletedSet(completed), |winIds|)
      ensures locked == Locked(winIds, CompletedSet(completed), |winIds|)
      ensures labelTexts == LabelTexts(winIds, CompletedSet(completed), |winIds|)
      ensures showsNoneMessage <==> winIds == []
      ensures showsNoneMessage ==> photoRow.None?
      ensures !showsNoneMessage ==>
                photoRow == Some(Photos(unlocked) + (if unlocked != [] && locked != [] then [Spacer] else []) + Photos(locked))
      ensures winningTitlesMap == map[]
    {
      winIds := [];
      unlocked := [];
      locked := [];
      showsNoneMessage := false;
      photoRow := None;
      winningTitlesMap := map[];
      labelTexts := map[];
      new;
      var ids := GetWinningSceneIds(story);
      winIds := ids;
      var completedSet := CompletedSet(completed);
      if |ids| == 0 {
        showsNoneMessage := true;
        return;
      }
      AddPhotos(ids, completedSet);
      var row := Photos(unlocked);
      if unlocked != [] && locked != [] {
        row := row + [Spacer];
      } else {
        assert row == row + [];
      }
      photoRow := Some(row + Photos(locked));
    }

    /** The loop of the constructor: each win's label and container, in the unlocked or locked group. */
    method AddPhotos(ids: seq<string>, completedSet: set<string>)
      requires unlocked == [] && locked == [] && labelTexts == map[] && winningTitlesMap == map[]
      modifies this
      ensures unlocked == Unlocked(ids, completedSet, |ids|) && locked == Locked(ids, completedSet, |ids|)
      ensures labelTexts == LabelTexts(ids, completedSet, |ids|)
      ensures unchanged(this`winIds, this`showsNoneMessage, this`photoRow, this`winningTitlesMap)
    {
      for i := 0 to |ids|
        invariant unchanged(this`winIds, this`showsNoneMessage, this`photoRow, this`winningTitlesMap)
        invariant winningTitlesMap == map[]
        invariant unlocked == Unlocked(ids, completedSet, i) && locked == Locked(ids, completedSet, i)
        invariant labelTexts == LabelTexts(ids, completedSet, i)
      {
        var sceneId := ids[i];
        CreateDisplayLabelForSceneId(sceneId);
        if sceneId in completedSet {
          unlocked := unlocked + [sceneId];
        } else {
          labelTexts := labelTexts[sceneId := ""];
          locked := locked + [sceneId];
        }
      }
    }

    /** `createDisplayLabelForSceneId`: a label with the scene's display title, recorded by id. */
    method CreateDisplayLabelForSceneId(sceneId: string)
      modifies this
      ensures labelTexts == old(labelTexts)[sceneId := DisplayTitle(winningTitlesMap, Some(sceneId))]
      ensures unchanged(this`winIds, this`unlocked, this`locked, this`showsNoneMessage, this`photoRow, this`winningTitlesMap)
    {
      labelTexts := labelTexts[sceneId := DisplayTitle(winningTitlesMap, Some(sceneId))];
    }

    /** `setTitleForSceneId`: record the title and retitle the scene's label, if it has one. */
    method SetTitleForSceneId(sceneId: Option<string>, newTitle: Option<string>)
      modifies this
      ensures sceneId.None? || newTitle.None? ==>
                winningTitlesMap == old(winningTitlesMap) && labelTexts == old(labelTexts)
      ensures sceneId.Some? && newTitle.Some? ==>
                winningTitlesMap == old(winningTitlesMap)[sceneId.value := newTitle.value] &&
                labelTexts == (if sceneId.value in old(labelTexts) then old(labelTexts)[sceneId.value := newTitle.value]
                               else old(labelTexts))
      ensures sceneId.Some? && newTitle.Some? ==>
                DisplayTitle(winningTitlesMap, sceneId) == newTitle.value
      ensures unchanged(this`winIds, this`unlocked, this`locked, this`showsNoneMessage, this`photoRow)
    {
      if sceneId.None? || newTitle.None? {
        return;
      }
      winningTitlesMap := winningTitlesMap[sceneId.value := newTitle.value];
      if sceneId.value in labelTexts {
        labelTexts := labelTexts[sceneId.value := newTitle.value];
      }
    }

    /**
     * `setTitles`: record every title and retitle each label that exists, visiting the
     * entries in whatever order the map yields them.
     */
    method SetTitles(titles: Option<map<string, string>>)
      modifies this
      ensures titles.None? || titles.value == map[] ==>
                winningTitlesMap == old(winningTitlesMap) && labelTexts == old(labelTexts)
      ensures titles.Some? ==> winningTitlesMap == old(winningTitlesMap) + titles.value
      ensures titles.Some? ==> labelTexts.Keys == old(labelTexts).Keys
      ensures titles.Some? ==> forall k :: k in labelTexts ==>
                labelTexts[k] == (if k in titles.value then titles.value[k] else old(labelTexts)[k])
      ensures unchanged(this`winIds, this`unlocked, this`locked, this`showsNoneMessage, this`photoRow)
    {
      if titles.None? || titles.value == map[] {
        return;
      }
      var ts := titles.value;
      winningTitlesMap := winningTitlesMap + ts;
      var pending := ts.Keys;
      while pending != {}
        invariant pending <= ts.Keys
        invariant labelTexts.Keys == old(labelTexts).Keys
        invariant forall k :: k in labelTexts ==>
                    labelTexts[k] == (if k in ts && k !in pending then ts[k] else old(labelTexts)[k])
        invariant winningTitlesMap == old(winningTitlesMap) + ts
        invariant unchanged(this`winIds, this`unlocked, this`locked, this`showsNoneMessage, this`photoRow)
        decreases pending
      {
        var key :| key in pending;
        if key in labelTexts {
          labelTexts := labelTexts[key := ts[key]];
        }
        pending := pending - {key};
      }
    }
  }
}
