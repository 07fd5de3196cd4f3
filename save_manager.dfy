/**
 * The three save slots. The save directory is a store from slot number to the file held
 * there; Gson's encoding is abstracted to "a record round-trips", and a file that does not
 * parse is `Unparseable`. I/O faults are parameters.
 */
module Saves {
  import opened Wrappers
  import opened Items

  /** The saved record; Java's nullable references are `Option`s. */
  datatype SaveData = SaveData(
    playerName: Option<string>,
    storyFilePath: Option<string>,
    currentSceneId: Option<string>,
    health: int,
    darkMode: bool,
    addItemProcessedScenes: seq<string>,
    lastHealthAppliedSceneId: Option<string>,
    inventory: map<ItemType, seq<InventoryItem>>,
    lastUpdatedEpochMillis: int,
    completedWinSceneIds: seq<string>)

  /** What a slot file holds: a record, text Gson cannot read, or a document that reads as null. */
  datatype SlotFile = Stored(data: SaveData) | Unparseable | NullDocument

  /** The `IllegalArgumentException` of `pathForSlot`, raised before any `try` block. */
  datatype SlotError = SlotOutOfRange

  /** How a write goes: it succeeds, the file cannot be opened, or writing stops part-way. */
  datatype WriteFault = NoFault | OpenFailed | WriteFailed

  const SaveDir := "src/data/saves"

  predicate InRange(slot: int) {
    1 <= slot <= 3
  }

  function DigitString(d: int): (s: string)
    requires 0 <= d <= 9
    ensures |s| == 1 && '0' <= s[0] <= '9'
    ensures s[0] as int - '0' as int == d
  {
    [('0' as int + d) as char]
  }

  /** `pathForSlot`: `src/data/saves/slot<n>.json` for slots 1 to 3, an error otherwise. */
  function PathForSlot(slot: int): (r: Result<string, SlotError>)
    ensures r.Success? <==> InRange(slot)
    ensures r.Success? ==> |r.value| == |SaveDir| + 11 && r.value[..|SaveDir|] == SaveDir
    ensures r.Success? ==> r.value[|SaveDir|..|SaveDir| + 5] == "/slot"
    ensures r.Success? ==> r.value[|SaveDir| + 6..] == ".json"
    ensures r.Success? ==> r.value[|SaveDir| + 5] as int - '0' as int == slot
  {
    if !InRange(slot) then Failure(SlotOutOfRange)
    else Success(SaveDir + "/slot" + DigitString(slot) + ".json")
  }

  /** Distinct slots never share a file, so the store may be keyed by slot number. */
  lemma PathsDistinct(a: int, b: int)
    requires InRange(a) && InRange(b) && a != b
    ensures PathForSlot(a).value != PathForSlot(b).value
  {
    var i := |SaveDir| + 5;
    assert PathForSlot(a).value[i] != PathForSlot(b).value[i];
  }

  class SaveManager {
    /** The slot files present in the save directory. */
    var slots: map<int, SlotFile>

    constructor (slots: map<int, SlotFile>)
      ensures this.slots == slots
    {
      this.slots := slots;
    }

    /** `exists`: whether the slot file is there, whatever it holds. */
    function Exists(slot: int): (r: Result<bool, SlotError>)
      reads this
      ensures r.Success? <==> InRange(slot)
      ensures r.Success? ==> (r.value <==> slot in slots)
    {
      if !InRange(slot) then Failure(SlotOutOfRange) else Success(slot in slots)
    }

    /** `load`: the stored record; empty for a missing file, a parse failure or a null document. */
    function Load(slot: int): (r: Result<Option<SaveData>, SlotError>)
      reads this
      ensures r.Success? <==> InRange(slot)
      ensures r.Success? ==> (r.value.Some? <==> slot in slots && slots[slot].Stored?)
      ensures r.Success? && r.value.Some? ==> slots[slot] == Stored(r.value.value)
    {
      if !InRange(slot) then Failure(SlotOutOfRange)
      else if slot !in slots then Success(None)
      else match slots[slot]
        case Stored(d) => Success(Some(d))
        case Unparseable => Success(None)
        case NullDocument => Success(None)
    }

    /** `peekPlayerName`: the loaded record's player name, empty when either is missing. */
    function PeekPlayerName(slot: int): (r: Result<Option<string>, SlotError>)
      reads this
      ensures r.Success? <==> InRange(slot)
      ensures r.Success? ==>
                (r.value.Some? <==> slot in slots && slots[slot].Stored? && slots[slot].data.playerName.Some?)
      ensures r.Success? && r.value.Some? ==> r.value == slots[slot].data.playerName
    {
      match Load(slot)
      case Failure(e) => Failure(e)
      case Success(d) => Success(if d.Some? then d.value.playerName else None)
    }

    /** `peekSceneId`: the loaded record's scene id, empty when either is missing. */
    function PeekSceneId(slot: int): (r: Result<Option<string>, SlotError>)
      reads this
      ensures r.Success? <==> InRange(slot)
      ensures r.Success? ==>
                (r.value.Some? <==> slot in slots && slots[slot].Stored? && slots[slot].data.currentSceneId.Some?)
      ensures r.Success? && r.value.Some? ==> r.value == slots[slot].data.currentSceneId
    {
      match Load(slot)
      case Failure(e) => Failure(e)
      case Success(d) => Success(if d.Some? then d.value.currentSceneId else None)
    }

    /**
     * `save`: overwrite the slot with the record. A failed open leaves the file as it was; a
     * write that stops part-way leaves text that does not parse. Neither is reported.
     */
    method Save(slot: int, data: SaveData, fault: WriteFault) returns (r: Result<(), SlotError>)
      modifies this
      ensures r.Success? <==> InRange(slot)
      ensures r.Failure? || fault == OpenFailed ==> slots == old(slots)
      ensures r.Success? && fault == NoFault ==> slots == old(slots)[slot := Stored(data)]
      ensures r.Success? && fault == WriteFailed ==> slots == old(slots)[slot := Unparseable]
      ensures r.Success? && fault == NoFault ==> Load(slot) == Success(Some(data))
      ensures forall other :: other != slot ==> Load(other) == old(Load(other))
    {
      var p := PathForSlot(slot);
      if p.Failure? {
        return Failure(SlotOutOfRange);
      }
      if fault == NoFault {
        slots := slots[slot := Stored(data)];
      } else if fault == WriteFailed {
        slots := slots[slot := Unparseable];
      }
      return Success(());
    }

    /** `delete`: remove the slot file if it is there; a failing delete is swallowed. */
    method Delete(slot: int, deleteFails: bool) returns (r: Result<(), SlotError>)
      modifies this
      ensures r.Success? <==> InRange(slot)
      ensures r.Failure? || deleteFails ==> slots == old(slots)
      ensures r.Success? && !deleteFails ==> slots == old(slots) - {slot}
      ensures r.Success? && !deleteFails ==> Exists(slot) == Success(false) && Load(slot) == Success(None)
      ensures forall other :: other != slot ==> Load(other) == old(Load(other))
    {
      var p := PathForSlot(slot);
      if p.Failure? {
        return Failure(SlotOutOfRange);
      }
      if !deleteFails {
        slots := slots - {slot};
      }
      return Success(());
    }
  }
}
