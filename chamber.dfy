/**
 * The bolt rack mechanism: a back stroke guarded against re-entry and an
 * unguarded forward stroke, each stepping the bolt's z coordinate towards a
 * bound by MoveTowards, one frame per step.
 */
module Chamber {
  import opened Motion

  class ChamberMechanism {
    const minZ: real
    const maxZ: real
    /** The bolt's local position. */
    var boltX: real
    var boltY: real
    var boltZ: real
    var isRacked: bool
    var isBeingHeld: bool

    constructor (minZ: real, maxZ: real, x: real, y: real, z: real)
      ensures this.minZ == minZ && this.maxZ == maxZ
      ensures boltX == x && boltY == y && boltZ == z
      ensures !isRacked && !isBeingHeld
    {
      this.minZ, this.maxZ := minZ, maxZ;
      boltX, boltY, boltZ := x, y, z;
      isRacked, isBeingHeld := false, false;
    }

    /** Starts a back stroke unless one is in progress, in which case nothing happens. */
    method RackBolt(step: real)
      requires step > 0.0
      modifies this
      ensures old(isBeingHeld) ==> unchanged(this)
      ensures !old(isBeingHeld) ==>
                boltZ == Min(old(boltZ), minZ) && isRacked && !isBeingHeld
      ensures boltX == old(boltX) && boltY == old(boltY)
    {
      if !isBeingHeld {
        MoveBoltBack(step);
      }
    }

    /** The same guarded back stroke as RackBolt, under another name. */
    method AutoRack(step: real)
      requires step > 0.0
      modifies this
      ensures old(isBeingHeld) ==> unchanged(this)
      ensures !old(isBeingHeld) ==>
                boltZ == Min(old(boltZ), minZ) && isRacked && !isBeingHeld
      ensures boltX == old(boltX) && boltY == old(boltY)
    {
      if !isBeingHeld {
        MoveBoltBack(step);
      }
    }

    /**
     * The back stroke, run to completion: each frame steps z by at most `step`
     * towards minZ without passing it, while isBeingHeld stays set; it ends at
     * minZ (or where it was, if already at or behind minZ) with the bolt racked.
     */
    method MoveBoltBack(step: real)
      requires step > 0.0
      modifies this`boltZ, this`isBeingHeld, this`isRacked
      ensures boltZ == Min(old(boltZ), minZ)
      ensures !isBeingHeld && isRacked
    {
      isBeingHeld := true;
      while boltZ > minZ
        invariant isBeingHeld && isRacked == old(isRacked)
        invariant old(boltZ) > minZ ==> minZ <= boltZ <= old(boltZ)
        invariant old(boltZ) <= minZ ==> boltZ == old(boltZ)
        decreases FramesLeft(boltZ - minZ, step)
      {
        var z := MoveTowards(boltZ, minZ, step);
        assert minZ <= z <= boltZ && boltZ - z <= step;
        FramesLeftStep(boltZ - minZ, step);
        boltZ := z;
      }
      isBeingHeld := false;
      isRacked := true;
    }

    /** Releases the bolt: starts a forward stroke, with no guard. */
    method ReleaseBolt(step: real)
      requires step > 0.0
      modifies this`boltZ, this`isRacked
      ensures boltZ == Max(old(boltZ), maxZ)
      ensures !isRacked
    {
      MoveBoltForward(step);
    }

    /**
     * The forward stroke, run to completion: each frame steps z by at most
     * `step` towards maxZ without passing it; it ends at maxZ (or where it was,
     * if already at or beyond maxZ) with the bolt no longer racked.
     */
    method MoveBoltForward(step: real)
      requires step > 0.0
      modifies this`boltZ, this`isRacked
      ensures boltZ == Max(old(boltZ), maxZ)
      ensures !isRacked
    {
      while boltZ < maxZ
        invariant old(boltZ) < maxZ ==> old(boltZ) <= boltZ <= maxZ
        invariant old(boltZ) >= maxZ ==> boltZ == old(boltZ)
        decreases FramesLeft(maxZ - boltZ, step)
      {
        var z := MoveTowards(boltZ, maxZ, step);
        assert boltZ <= z <= maxZ && z - boltZ <= step;
        FramesLeftStep(maxZ - boltZ, step);
        boltZ := z;
      }
      isRacked := false;
    }
  }
}
