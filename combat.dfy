/**
 * The fight rules of `MainController`: the durability cost and health penalties derived
 * from a scene's threat level, and the choice of weapon.
 */
module Combat {
  import opened Wrappers
  import opened Items
  import JavaInt

  /** The power of bare fists. */
  const FistsPower: int := 2
  const WinRoute: string := "fight_result_win_1"
  const LoseRoute: string := "fight_result_lose_1"

  /** Durability lost by the weapon used: 2 against a threat of 5 or more, else 1. */
  function DurabilityDecrease(threat: int): (d: int)
    ensures d == 1 || d == 2
    ensures d == 2 <==> threat >= 5
  {
    if threat >= 5 then 2 else 1
  }

  /** Health lost on a win: 10 plus the threat, in Java `int` arithmetic. */
  function WinHealthPenalty(threat: int): (p: int)
    ensures JavaInt.IsInt(p)
    ensures JavaInt.IsInt(10 + threat) ==> p == 10 + threat
  {
    JavaInt.Add(10, threat)
  }

  /** Health lost on a loss: 25 plus twice the threat, in Java `int` arithmetic. */
  function LoseHealthPenalty(threat: int): (p: int)
    ensures JavaInt.IsInt(p)
    ensures JavaInt.IsInt(2 * threat) && JavaInt.IsInt(25 + 2 * threat) ==> p == 25 + 2 * threat
  {
    JavaInt.Add(25, JavaInt.Mul(2, threat))
  }

  /** For every threat a scene can carry (from -1 up to any `int` that does not overflow), losing costs more than winning. */
  lemma LosingCostsMore(threat: int)
    requires -1 <= threat && JavaInt.IsInt(25 + 2 * threat)
    ensures LoseHealthPenalty(threat) > WinHealthPenalty(threat) > 0
  {
  }

  /** The stream filter: a weapon can be used when its power reaches the threat and it is not broken. */
  predicate Qualifies(w: InventoryItem, threat: int) {
    w.power >= threat && w.durability > 0
  }

  /**
   * `filter(Qualifies).sorted(by power).get(0)` as a position in the weapon list: among the
   * qualifying weapons one of least power, the earliest of those because the sort is stable.
   */
  function ChooseWeapon(ws: seq<InventoryItem>, threat: int): (r: Option<nat>)
    ensures r.None? <==> forall i :: 0 <= i < |ws| ==> !Qualifies(ws[i], threat)
    ensures r.Some? ==> r.value < |ws| && Qualifies(ws[r.value], threat)
    ensures r.Some? ==> forall i :: 0 <= i < |ws| && Qualifies(ws[i], threat) ==> ws[r.value].power <= ws[i].power
    ensures r.Some? ==> forall i :: 0 <= i < r.value && Qualifies(ws[i], threat) ==> ws[i].power > ws[r.value].power
    decreases |ws|
  {
    if ws == [] then None
    else
      var rest := ChooseWeapon(ws[1..], threat);
      assert forall i :: 1 <= i < |ws| ==> ws[i] == ws[1..][i - 1];
      if rest.Some? && (!Qualifies(ws[0], threat) || ws[1 + rest.value].power < ws[0].power) then
        Some(1 + rest.value)
      else if Qualifies(ws[0], threat) then Some(0)
      else None
  }

  /** The properties above fix the weapon: no other position satisfies them. */
  lemma ChooseWeaponUnique(ws: seq<InventoryItem>, threat: int, k: nat)
    requires k < |ws| && Qualifies(ws[k], threat)
    requires forall i :: 0 <= i < |ws| && Qualifies(ws[i], threat) ==> ws[k].power <= ws[i].power
    requires forall i :: 0 <= i < k && Qualifies(ws[i], threat) ==> ws[i].power > ws[k].power
    ensures ChooseWeapon(ws, threat) == Some(k)
  {
  }

  /** A fight is won with a weapon when one qualifies, else with fists when they reach the threat. */
  predicate Wins(ws: seq<InventoryItem>, threat: int) {
    ChooseWeapon(ws, threat).Some? || FistsPower >= threat
  }

  lemma WinsIff(ws: seq<InventoryItem>, threat: int)
    ensures Wins(ws, threat) <==> threat <= FistsPower || exists i :: 0 <= i < |ws| && Qualifies(ws[i], threat)
  {
  }
}
