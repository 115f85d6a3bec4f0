/**
 * The control logic of the application shell (App.tsx): the camera that
 * frames the current stage, and the application state fed by gesture updates.
 */
module App {
  import opened Types
  import opened Linear

  // ---------------------------------------------------------------------
  // Camera auto-framing
  // ---------------------------------------------------------------------

  /** Near top-down for the accretion disk, an angled three-quarter view otherwise. */
  function CameraTarget(stage: StarStage): (v: Vec3)
    ensures v == Vec3(0.0, 10.0, 0.1) <==> stage == BlackHole
    ensures v == Vec3(0.0, 2.0, 8.0) <==> stage != BlackHole
  {
    if stage == BlackHole then Vec3(0.0, 10.0, 0.1) else Vec3(0.0, 2.0, 8.0)
  }

  /** Interpolation factor of one frame lasting `delta` seconds. */
  function LerpFactor(delta: real): real
  {
    2.0 * delta
  }

  /**
   * Camera position after one frame. A frame of at most one second never
   * takes any axis of the camera farther from the target.
   */
  function CameraStep(position: Vec3, stage: StarStage, delta: real): (n: Vec3)
    ensures 0.0 <= delta <= 1.0 ==> NoFarther(n, position, CameraTarget(stage))
  {
    var t, f := CameraTarget(stage), LerpFactor(delta);
    LerpCloser(position.x, t.x, f);
    LerpCloser(position.y, t.y, f);
    LerpCloser(position.z, t.z, f);
    LerpVec(position, t, f)
  }

  class CameraController {
    /** The reusable target vector (`vec.current`). */
    var target: Vec3
    /** The live camera position. */
    var position: Vec3

    /** The canvas camera starts at (0, 2, 8); a fresh target vector is the origin. */
    constructor ()
      ensures position == Vec3(0.0, 2.0, 8.0) && target == Vec3(0.0, 0.0, 0.0)
    {
      position := Vec3(0.0, 2.0, 8.0);
      target := Vec3(0.0, 0.0, 0.0);
    }

    /** One frame: set the target for the stage, then move the camera `2 * delta` of the way there. */
    method Frame(stage: StarStage, delta: real)
      modifies this
      ensures target == CameraTarget(stage)
      ensures position == CameraStep(old(position), stage, delta)
    {
      if stage == BlackHole {
        target := Vec3(0.0, 10.0, 0.1);
      } else {
        target := Vec3(0.0, 2.0, 8.0);
      }
      position := LerpVec(position, target, 2.0 * delta);
    }
  }

  /** Per-axis distance of `p` from `q` is no larger than that of `r` from `q`. */
  predicate NoFarther(p: Vec3, r: Vec3, q: Vec3)
  {
    Abs(q.x - p.x) <= Abs(q.x - r.x) && Abs(q.y - p.y) <= Abs(q.y - r.y) && Abs(q.z - p.z) <= Abs(q.z - r.z)
  }

  /**
   * A frame no longer than half a second moves every coordinate toward the
   * target without overshooting it.
   */
  lemma CameraStepApproaches(position: Vec3, stage: StarStage, delta: real)
    requires 0.0 <= delta <= 0.5
    ensures var t, n := CameraTarget(stage), CameraStep(position, stage, delta);
      && (position.x <= t.x ==> position.x <= n.x <= t.x) && (t.x <= position.x ==> t.x <= n.x <= position.x)
      && (position.y <= t.y ==> position.y <= n.y <= t.y) && (t.y <= position.y ==> t.y <= n.y <= position.y)
      && (position.z <= t.z ==> position.z <= n.z <= t.z) && (t.z <= position.z ==> t.z <= n.z <= position.z)
  {
    var t, f := CameraTarget(stage), LerpFactor(delta);
    LerpBetween(position.x, t.x, f);
    LerpBetween(position.y, t.y, f);
    LerpBetween(position.z, t.z, f);
  }

  /**
   * The factor `2 * delta` is not clamped: a frame longer than one second
   * overshoots so far that every axis not already on target ends up farther
   * from it than before.
   */
  lemma CameraOvershootRecedes(position: Vec3, stage: StarStage, delta: real)
    requires 1.0 < delta
    ensures var t, n := CameraTarget(stage), CameraStep(position, stage, delta);
      && (position.x != t.x ==> Abs(t.x - position.x) < Abs(t.x - n.x))
      && (position.y != t.y ==> Abs(t.y - position.y) < Abs(t.y - n.y))
      && (position.z != t.z ==> Abs(t.z - position.z) < Abs(t.z - n.z))
    ensures position != CameraTarget(stage) ==>
      !NoFarther(CameraStep(position, stage, delta), position, CameraTarget(stage))
  {
    var t, f := CameraTarget(stage), LerpFactor(delta);
    LerpCloser(position.x, t.x, f);
    LerpCloser(position.y, t.y, f);
    LerpCloser(position.z, t.z, f);
  }

  /** Camera position after frames of the given durations, the stage held fixed. */
  function Follow(position: Vec3, stage: StarStage, deltas: seq<real>): Vec3
    decreases |deltas|
  {
    if deltas == [] then position else Follow(CameraStep(position, stage, deltas[0]), stage, deltas[1..])
  }

  /** Every frame lasts at most one second. */
  predicate ShortFrames(deltas: seq<real>)
  {
    forall k :: 0 <= k < |deltas| ==> 0.0 <= deltas[k] <= 1.0
  }

  /** Over any run of short frames the camera never gets farther from its target on any axis. */
  lemma {:induction false} FollowNeverRecedes(position: Vec3, stage: StarStage, deltas: seq<real>)
    requires ShortFrames(deltas)
    ensures NoFarther(Follow(position, stage, deltas), position, CameraTarget(stage))
    decreases |deltas|
  {
    if deltas != [] {
      var next := CameraStep(position, stage, deltas[0]);
      FollowNeverRecedes(next, stage, deltas[1..]);
    }
  }

  /** Once the camera has reached the target it stays there, whatever the frame times. */
  lemma {:induction false} FollowFixedPoint(stage: StarStage, deltas: seq<real>)
    ensures Follow(CameraTarget(stage), stage, deltas) == CameraTarget(stage)
  {
    if deltas != [] {
      assert CameraStep(CameraTarget(stage), stage, deltas[0]) == CameraTarget(stage);
      FollowFixedPoint(stage, deltas[1..]);
    }
  }

  // ---------------------------------------------------------------------
  // Application state and gesture smoothing
  // ---------------------------------------------------------------------

  /** What the gesture service reports. */
  datatype GestureUpdate = GestureUpdate(openness: real, handDetected: bool)

  datatype AppState = AppState(stage: StarStage, openness: real, handDetected: bool)

  predicate InUnitRange(v: real)
  {
    0.0 <= v <= 1.0
  }

  /** Separated stars, half-open hand, no hand seen yet. */
  function InitialState(): (s: AppState)
    ensures s.stage == Separated && s.openness == 0.5 && !s.handDetected
    ensures InUnitRange(s.openness)
  {
    AppState(Separated, 0.5, false)
  }

  /**
   * The smoothing filter: 70% of the previous openness, 30% of the new reading.
   * It stays in [0, 1], leaves a repeated reading alone and otherwise lands
   * strictly between the previous value and the reading.
   */
  function Smooth(prev: real, incoming: real): (r: real)
    ensures r == Lerp(prev, incoming, 0.3)
    ensures InUnitRange(prev) && InUnitRange(incoming) ==> InUnitRange(r)
    ensures incoming == prev ==> r == prev
    ensures prev < incoming ==> prev < r < incoming
    ensures incoming < prev ==> incoming < r < prev
  {
    prev * 0.7 + incoming * 0.3
  }

  /** A gesture update: openness is smoothed, the detection flag is taken as is. */
  function OnGesture(s: AppState, u: GestureUpdate): (s': AppState)
    ensures s'.stage == s.stage && s'.handDetected == u.handDetected
    ensures s'.openness == Smooth(s.openness, u.openness)
    ensures InUnitRange(s.openness) && InUnitRange(u.openness) ==> InUnitRange(s'.openness)
  {
    s.(openness := Smooth(s.openness, u.openness), handDetected := u.handDetected)
  }

  /** The user picks a stage; the control values are untouched. */
  function SelectStage(s: AppState, stage: StarStage): (s': AppState)
    ensures s'.stage == stage && s'.openness == s.openness && s'.handDetected == s.handDetected
  {
    s.(stage := stage)
  }

  /** The state after a series of gesture updates. */
  function ApplyUpdates(s: AppState, updates: seq<GestureUpdate>): AppState
    decreases |updates|
  {
    if updates == [] then s else ApplyUpdates(OnGesture(s, updates[0]), updates[1..])
  }

  predicate ReadingsInRange(updates: seq<GestureUpdate>)
  {
    forall k :: 0 <= k < |updates| ==> InUnitRange(updates[k].openness)
  }

  /**
   * After any series of gesture updates with readings in [0, 1], the smoothed
   * openness is still in [0, 1], the stage is the one the user chose, and the
   * detection flag is the latest reading's (or unchanged if there was none).
   */
  lemma {:induction false} UpdatesKeepState(s: AppState, updates: seq<GestureUpdate>)
    requires InUnitRange(s.openness) && ReadingsInRange(updates)
    ensures InUnitRange(ApplyUpdates(s, updates).openness)
    ensures ApplyUpdates(s, updates).stage == s.stage
    ensures ApplyUpdates(s, updates).handDetected
         == if updates == [] then s.handDetected else updates[|updates| - 1].handDetected
    decreases |updates|
  {
    if updates != [] {
      var next := OnGesture(s, updates[0]);
      UpdatesKeepState(next, updates[1..]);
      if |updates| > 1 {
        assert updates[1..][|updates[1..]| - 1] == updates[|updates| - 1];
      }
    }
  }
}
