/** Real arithmetic helpers and the engine's MoveTowards step, used by the bolt strokes. */
module Motion {

  function Abs(x: real): real {
    if x < 0.0 then -x else x
  }

  function Min(a: real, b: real): real {
    if a <= b then a else b
  }

  function Max(a: real, b: real): real {
    if a <= b then b else a
  }

  /** The engine's sign function: zero counts as positive. */
  function Sign(x: real): (r: real)
    ensures r == 1.0 || r == -1.0
    ensures r * x == Abs(x)
    ensures r == 1.0 <==> x >= 0.0
  {
    if x >= 0.0 then 1.0 else -1.0
  }

  /**
   * One step of the engine's MoveTowards: arrive at `target` when it is within
   * `maxDelta`, otherwise move `maxDelta` towards it.
   */
  function MoveTowards(current: real, target: real, maxDelta: real): (r: real)
    ensures Abs(target - current) <= maxDelta ==> r == target
    ensures 0.0 <= maxDelta ==> Abs(r - current) <= maxDelta
    ensures 0.0 <= maxDelta ==> Min(current, target) <= r <= Max(current, target)
    ensures 0.0 <= maxDelta && maxDelta < Abs(target - current) ==>
              Abs(r - current) == maxDelta && Abs(target - r) == Abs(target - current) - maxDelta
  {
    if Abs(target - current) <= maxDelta then target
    else current + Sign(target - current) * maxDelta
  }

  /** Frames a stroke of length `distance` still needs at `step` per frame: the ceiling of their ratio. */
  function FramesLeft(distance: real, step: real): int
    requires step > 0.0
  {
    -(((-distance) / step).Floor)
  }

  /** A full step shortens the stroke by exactly one frame; a stroke within one step needs one frame. */
  lemma FramesLeftStep(distance: real, step: real)
    requires step > 0.0 && distance > 0.0
    ensures FramesLeft(distance, step) >= 1
    ensures distance > step ==> FramesLeft(distance - step, step) == FramesLeft(distance, step) - 1
  {
    var x := (-distance) / step;
    assert step / step == 1.0;
    assert (-distance + step) / step == x + step / step;
    assert (x + 1.0).Floor == x.Floor + 1;
  }
}
