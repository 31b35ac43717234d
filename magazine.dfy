/**
 * The magazine: a round counter with a consume operation that does nothing at
 * zero, and two round objects whose visibility follows the count.
 */
module Magazines {
  import opened Wrappers

  /** What UseRound does to a round count: the count left and the value it returns. */
  datatype Use = Use(left: int, handed: int)

  /** The effect of one UseRound call on a magazine holding `ammo` rounds. */
  function ConsumeOne(ammo: int): Use {
    if ammo > 0 then Use(ammo - 1, 1) else Use(ammo, 0)
  }

  /** `k` successive UseRound calls: the count left and the sum of their returns. */
  function ConsumeMany(ammo: int, k: nat): Use
    decreases k
  {
    if k == 0 then Use(ammo, 0)
    else
      var before := ConsumeMany(ammo, k - 1);
      var last := ConsumeOne(before.left);
      Use(last.left, before.handed + last.handed)
  }

  /** From a non-negative count, `k` calls leave `max(0, ammo - k)` rounds and hand out `min(k, ammo)`. */
  lemma {:induction false} ConsumeManyFrom(ammo: nat, k: nat)
    ensures ConsumeMany(ammo, k) == if k <= ammo then Use(ammo - k, k) else Use(0, ammo)
  {
    if k > 0 {
      ConsumeManyFrom(ammo, k - 1);
    }
  }

  /** Starting from a non-negative count, the count never becomes negative. */
  lemma {:induction false} ConsumeManyNonNegative(ammo: int, k: nat)
    requires ammo >= 0
    ensures ConsumeMany(ammo, k).left >= 0
  {
    ConsumeManyFrom(ammo, k);
  }

  /** A count at or below zero is left alone by any number of calls, none of which hands out a round. */
  lemma {:induction false} ConsumeManyAtZero(ammo: int, k: nat)
    requires ammo <= 0
    ensures ConsumeMany(ammo, k) == Use(ammo, 0)
  {
    if k > 0 {
      ConsumeManyAtZero(ammo, k - 1);
    }
  }

  /** After `k <= maxAmmo` calls on a full magazine, HasAmmo holds iff `k < maxAmmo`. */
  lemma {:induction false} HasAmmoAfterUses(maxAmmo: nat, k: nat)
    requires k <= maxAmmo
    ensures ConsumeMany(maxAmmo, k).left > 0 <==> k < maxAmmo
  {
    ConsumeManyFrom(maxAmmo, k);
  }

  /**
   * `k` successive UseRound calls on one magazine: the count left and the sum
   * of the returns are those ConsumeMany gives.
   */
  method UseRounds(m: Magazine, k: nat) returns (total: int)
    modifies m
    ensures Use(m.currentAmmo, total) == ConsumeMany(old(m.currentAmmo), k)
    ensures old(m.Valid()) ==> m.Valid()
  {
    total := 0;
    var i := 0;
    while i < k
      invariant 0 <= i <= k
      invariant Use(m.currentAmmo, total) == ConsumeMany(old(m.currentAmmo), i)
      invariant old(m.Valid()) ==> m.Valid()
    {
      var r := m.UseRound();
      total := total + r;
      i := i + 1;
    }
  }

  /** Whether an optional round object shows exactly when `visible` says it should. */
  predicate Shows(round: Option<bool>, visible: bool) {
    round.Some? ==> round.value == visible
  }

  class Magazine {
    var maxAmmo: int
    var currentAmmo: int
    /** The active flag of the first round object, None when no object is assigned. */
    var round1: Option<bool>
    /** The active flag of the second round object, None when no object is assigned. */
    var round2: Option<bool>

    /** Round visibility agrees with the count: round1 shows above one round, round2 above none. */
    ghost predicate Valid()
      reads this
    {
      Shows(round1, currentAmmo > 1) && Shows(round2, currentAmmo > 0)
    }

    /** Awake: the magazine starts full and its round objects are updated to match. */
    constructor (maxAmmo: int, hasRound1: bool, hasRound2: bool)
      ensures this.maxAmmo == maxAmmo && currentAmmo == maxAmmo
      ensures round1.Some? == hasRound1 && round2.Some? == hasRound2
      ensures Valid()
    {
      this.maxAmmo := maxAmmo;
      currentAmmo := maxAmmo;
      round1 := if hasRound1 then Some(false) else None;
      round2 := if hasRound2 then Some(false) else None;
      new;
      UpdateRoundsVisibility();
    }

    predicate HasAmmo()
      reads this
    {
      currentAmmo > 0
    }

    /** Hands out one round when there is one (returning 1), and otherwise returns 0 and changes nothing. */
    method UseRound() returns (r: int)
      modifies this
      ensures Use(currentAmmo, r) == ConsumeOne(old(currentAmmo))
      ensures old(currentAmmo) > 0 ==> r == 1 && currentAmmo == old(currentAmmo) - 1 && Valid()
      ensures old(currentAmmo) <= 0 ==> r == 0 && unchanged(this)
      ensures old(currentAmmo) >= 0 ==> currentAmmo >= 0
      ensures old(Valid()) ==> Valid()
      ensures maxAmmo == old(maxAmmo)
      ensures round1.Some? == old(round1).Some? && round2.Some? == old(round2).Some?
    {
      if currentAmmo > 0 {
        currentAmmo := currentAmmo - 1;
        UpdateRoundsVisibility();
        return 1;
      }
      return 0;
    }

    /** Sets each assigned round object's active flag from the count. */
    method UpdateRoundsVisibility()
      modifies this`round1, this`round2
      ensures Valid()
      ensures round1 == if old(round1).Some? then Some(currentAmmo > 1) else None
      ensures round2 == if old(round2).Some? then Some(currentAmmo > 0) else None
    {
      if round1.Some? {
        round1 := Some(currentAmmo > 1);
      }
      if round2.Some? {
        round2 := Some(currentAmmo > 0);
      }
    }
  }
}
