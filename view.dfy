/**
 * The view controller: per-frame dispatch on the view mode, the snap-turn
 * latch that allows one snap per stick deflection, and the mode accessors.
 * The rig's rotation is its yaw in degrees.
 */
module Views {
  import opened Motion

  datatype ViewMode = Smooth | Snap | FOV

  /** The snap-turn latch and the rig's yaw. */
  datatype SnapState = SnapState(ready: bool, yaw: real)

  /**
   * One frame of snap turning with stick x: a deflection to the threshold
   * snaps by the angle in the stick's direction if the latch is armed, and
   * disarms it; a stick inside the threshold re-arms it.
   */
  function SnapFrame(s: SnapState, x: real, threshold: real, angle: real): SnapState {
    if Abs(x) >= threshold && s.ready then SnapState(false, s.yaw + Sign(x) * angle)
    else if Abs(x) < threshold then SnapState(true, s.yaw)
    else s
  }

  /** Successive frames of snap turning, one stick reading per frame. */
  function SnapFrames(s: SnapState, xs: seq<real>, threshold: real, angle: real): SnapState
    decreases |xs|
  {
    if xs == [] then s else SnapFrames(SnapFrame(s, xs[0], threshold, angle), xs[1..], threshold, angle)
  }

  /** While the latch is disarmed, a stick held beyond the threshold changes nothing. */
  lemma {:induction false} HeldWhileDisarmed(s: SnapState, xs: seq<real>, threshold: real, angle: real)
    requires !s.ready
    requires forall i :: 0 <= i < |xs| ==> Abs(xs[i]) >= threshold
    ensures SnapFrames(s, xs, threshold, angle) == s
    decreases |xs|
  {
    if xs != [] {
      HeldWhileDisarmed(s, xs[1..], threshold, angle);
    }
  }

  /**
   * Holding the stick beyond the threshold for any number of frames snaps
   * exactly once, by the first frame's direction, when the latch was armed,
   * and not at all otherwise.
   */
  lemma {:induction false} HeldStickSnapsOnce(s: SnapState, xs: seq<real>, threshold: real, angle: real)
    requires |xs| > 0
    requires forall i :: 0 <= i < |xs| ==> Abs(xs[i]) >= threshold
    ensures SnapFrames(s, xs, threshold, angle) ==
              if s.ready then SnapState(false, s.yaw + Sign(xs[0]) * angle) else s
  {
    var first := SnapFrame(s, xs[0], threshold, angle);
    HeldWhileDisarmed(first, xs[1..], threshold, angle);
  }

  /**
   * A deflection held for `n` frames and then returned inside the threshold
   * snaps once and leaves the latch armed for the next deflection.
   */
  lemma SnapThenRearm(s: SnapState, xs: seq<real>, x: real, threshold: real, angle: real)
    requires s.ready && |xs| > 0
    requires forall i :: 0 <= i < |xs| ==> Abs(xs[i]) >= threshold
    requires Abs(x) < threshold
    ensures SnapFrames(s, xs + [x], threshold, angle) == SnapState(true, s.yaw + Sign(xs[0]) * angle)
  {
    SnapFramesAppend(s, xs, x, threshold, angle);
    HeldStickSnapsOnce(s, xs, threshold, angle);
  }

  lemma {:induction false} SnapFramesAppend(s: SnapState, xs: seq<real>, x: real, threshold: real, angle: real)
    ensures SnapFrames(s, xs + [x], threshold, angle) ==
              SnapFrame(SnapFrames(s, xs, threshold, angle), x, threshold, angle)
    decreases |xs|
  {
    if xs == [] {
      assert xs + [x] == [x];
    } else {
      assert (xs + [x])[1..] == xs[1..] + [x];
      SnapFramesAppend(SnapFrame(s, xs[0], threshold, angle), xs[1..], x, threshold, angle);
    }
  }

  class ViewController {
    var currentViewMode: ViewMode
    const smoothRotationSpeed: real
    const snapAngle: real
    const snapThreshold: real
    var snapTurnReady: bool
    var yaw: real

    constructor (mode: ViewMode, smoothRotationSpeed: real, snapAngle: real, snapThreshold: real, yaw: real)
      ensures currentViewMode == mode && snapTurnReady && this.yaw == yaw
      ensures this.smoothRotationSpeed == smoothRotationSpeed
      ensures this.snapAngle == snapAngle && this.snapThreshold == snapThreshold
    {
      currentViewMode := mode;
      this.smoothRotationSpeed := smoothRotationSpeed;
      this.snapAngle, this.snapThreshold := snapAngle, snapThreshold;
      snapTurnReady, this.yaw := true, yaw;
    }

    function Snapping(): SnapState
      reads this
    {
      SnapState(snapTurnReady, yaw)
    }

    /**
     * One frame, with stick x and frame time dt: runs the handler of the
     * current mode and no other. The FOV handler's recentring is not
     * modelled: it may turn the rig by any amount, and touches nothing else.
     */
    method Update(x: real, dt: real)
      modifies this`snapTurnReady, this`yaw
      ensures currentViewMode == Snap ==> Snapping() == SnapFrame(old(Snapping()), x, snapThreshold, snapAngle)
      ensures currentViewMode == Smooth ==> snapTurnReady == old(snapTurnReady) && yaw == old(yaw) + x * smoothRotationSpeed * dt
      ensures currentViewMode == FOV ==> snapTurnReady == old(snapTurnReady)
    {
      match currentViewMode
      case Smooth => HandleSmoothView(x, dt);
      case Snap => HandleSnapView(x);
      case FOV =>
        var turn: real :| true;
        yaw := yaw + turn;
    }

    /** Turns by the stick's x times the rotation speed times the frame time. */
    method HandleSmoothView(x: real, dt: real)
      modifies this`yaw
      ensures yaw == old(yaw) + x * smoothRotationSpeed * dt
    {
      yaw := yaw + x * smoothRotationSpeed * dt;
    }

    /**
     * One snap-turn frame: snaps by snapAngle in the direction of x and
     * disarms the latch when |x| reaches the threshold while armed; re-arms
     * it, without turning, when |x| is inside the threshold.
     */
    method HandleSnapView(x: real)
      modifies this`snapTurnReady, this`yaw
      ensures Snapping() == SnapFrame(old(Snapping()), x, snapThreshold, snapAngle)
      ensures Abs(x) >= snapThreshold && old(snapTurnReady) ==>
                !snapTurnReady && yaw == old(yaw) + Sign(x) * snapAngle
      ensures Abs(x) >= snapThreshold && !old(snapTurnReady) ==> !snapTurnReady && yaw == old(yaw)
      ensures Abs(x) < snapThreshold ==> snapTurnReady && yaw == old(yaw)
    {
      if Abs(x) >= snapThreshold && snapTurnReady {
        var direction := Sign(x);
        yaw := yaw + direction * snapAngle;
        snapTurnReady := false;
      } else if Abs(x) < snapThreshold {
        snapTurnReady := true;
      }
    }

    /**
     * Successive Snap-mode frames, one stick reading each: the latch and yaw end
     * where SnapFrames says.
     */
    method HandleSnapViewFrames(xs: seq<real>)
      modifies this`snapTurnReady, this`yaw
      ensures Snapping() == SnapFrames(old(Snapping()), xs, snapThreshold, snapAngle)
    {
      var i := 0;
      while i < |xs|
        invariant 0 <= i <= |xs|
        invariant Snapping() == SnapFrames(old(Snapping()), xs[..i], snapThreshold, snapAngle)
      {
        assert xs[..i + 1] == xs[..i] + [xs[i]];
        SnapFramesAppend(old(Snapping()), xs[..i], xs[i], snapThreshold, snapAngle);
        HandleSnapView(xs[i]);
        i := i + 1;
      }
      assert xs[..|xs|] == xs;
    }

    method SetViewMode(mode: ViewMode)
      modifies this`currentViewMode
      ensures GetViewMode() == mode
    {
      currentViewMode := mode;
    }

    function GetViewMode(): ViewMode
      reads this
    {
      currentViewMode
    }
  }
}
