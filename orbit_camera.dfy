/** The orbit camera (the `CameraFollow` script): an unbounded yaw and a
    clamped pitch accumulated from mouse input, a position that trails the
    orbit point by linear interpolation, and a look target fixed above the
    tracked subject. `Update` separately keeps a clamped `xRotation`. */
module OrbitCamera {
  import opened Engine

  /** The inspector-tunable fields of the script. */
  datatype CamSettings = CamSettings(
    offset: Vec3,
    smoothSpeed: real,
    mouseSensitivity: real,
    minYAngle: real,
    maxYAngle: real)

  /** The inspector defaults: offset (0, 2, -4), smoothing speed 5,
      sensitivity 100, pitch in [-35, 60]. */
  const DefaultCamSettings: CamSettings := CamSettings(Vec3(0.0, 2.0, -4.0), 5.0, 100.0, -35.0, 60.0)

  /** The height above the subject that the camera looks at. */
  const LookHeight: real := 1.5

  /** The bound of `xRotation`, in degrees either way. */
  const XRotationLimit: real := 90.0

  /** The script's fields and the camera's position; `lookPoint` is the point
      the camera was last turned toward, if any. */
  datatype CamState = CamState(yaw: real, pitch: real, xRotation: real, position: Vec3, lookPoint: Option<Vec3>)

  function InitialCam(position: Vec3): CamState {
    CamState(0.0, 0.0, 0.0, position, None)
  }

  /** `Mathf.Clamp`: the lower bound is compared first. */
  function Clamp(value: real, min: real, max: real): (r: real)
    ensures min <= max ==> min <= r <= max
    ensures min <= value <= max ==> r == value
    ensures value < min ==> r == min
    ensures min <= value && max < value ==> r == max
  {
    if value < min then min else if value > max then max else value
  }

  predicate Between(a: real, x: real, b: real) {
    (a <= x <= b) || (b <= x <= a)
  }

  function Abs(x: real): real { if x < 0.0 then -x else x }

  /** Scaling a difference by a factor in [0, 1] keeps it between zero and
      itself, and scales its size by the same factor. */
  lemma ScaledPart(d: real, c: real)
    requires 0.0 <= c <= 1.0
    ensures Between(0.0, d * c, d)
    ensures Abs(d * c) == c * Abs(d) <= Abs(d)
  {
  }

  /** `r` is where a coordinate at `a` ends up when it is moved toward `b`
      with parameter `t`: between the two, its distance to `b` the old
      distance times `1 - clamp01(t)` (so no larger, and strictly smaller
      for a positive parameter when it was off `b`), on `b` for a parameter
      of 1 or more and still at `a` for one of 0 or less. */
  predicate Approaches(a: real, r: real, b: real, t: real) {
    && Between(a, r, b)
    && Abs(r - b) == (1.0 - Clamp(t, 0.0, 1.0)) * Abs(a - b) <= Abs(a - b)
    && (0.0 < t && a != b ==> Abs(r - b) < Abs(a - b))
    && (t >= 1.0 ==> r == b)
    && (t <= 0.0 ==> r == a)
  }

  /** One coordinate of `Vector3.Lerp`: the parameter is clamped to [0, 1]. */
  function LerpCoord(a: real, b: real, t: real): (r: real)
    ensures Approaches(a, r, b, t)
  {
    var c := Clamp(t, 0.0, 1.0);
    ScaledPart(b - a, c);
    ScaledPart(a - b, 1.0 - c);
    assert a + (b - a) * c - b == (a - b) * (1.0 - c);
    assert 0.0 < t && a != b ==> (1.0 - c) * Abs(a - b) < 1.0 * Abs(a - b);
    a + (b - a) * c
  }

  /** `Vector3.Lerp`: every coordinate approaches the goal's as
      `Approaches` says, so a parameter of 1 or more lands on the goal and
      one of 0 or less stays put. */
  function Lerp(a: Vec3, b: Vec3, t: real): (r: Vec3)
    ensures Approaches(a.x, r.x, b.x, t) && Approaches(a.y, r.y, b.y, t) && Approaches(a.z, r.z, b.z, t)
    ensures t >= 1.0 ==> r == b
    ensures t <= 0.0 ==> r == a
  {
    var x := LerpCoord(a.x, b.x, t);
    var y := LerpCoord(a.y, b.y, t);
    var z := LerpCoord(a.z, b.z, t);
    Vec3(x, y, z)
  }

  /** `Update`: the mouse's vertical axis tilts `xRotation`, kept in
      [-90, 90]. The horizontal axis only turns the player's body, which is
      not part of this model. */
  function UpdateStep(cfg: CamSettings, s: CamState, axisY: real, dt: real): (r: CamState)
    ensures -XRotationLimit <= r.xRotation <= XRotationLimit
    ensures r.xRotation == Clamp(s.xRotation - axisY * cfg.mouseSensitivity * dt, -XRotationLimit, XRotationLimit)
    ensures var tilted := s.xRotation - axisY * cfg.mouseSensitivity * dt;
      -XRotationLimit <= tilted <= XRotationLimit ==> r.xRotation == tilted
    ensures r == s.(xRotation := r.xRotation)
  {
    s.(xRotation := Clamp(s.xRotation - axisY * cfg.mouseSensitivity * dt, -XRotationLimit, XRotationLimit))
  }

  /** The orbit point for a subject at `target`. */
  function Desired(cfg: CamSettings, u: Numerics, target: Vec3, pitch: real, yaw: real): Vec3 {
    Add(target, u.eulerRotate(pitch, yaw, cfg.offset))
  }

  /** The point the camera is turned toward for a subject at `target`. */
  function LookPoint(target: Vec3): (p: Vec3)
    ensures p.x == target.x && p.y == target.y + LookHeight && p.z == target.z
  {
    Add(target, Scale(Up, LookHeight))
  }

  /** `LateUpdate`, with the subject's position, or `None` when the script
      has no target. */
  function LateUpdateStep(cfg: CamSettings, u: Numerics, s: CamState, target: Option<Vec3>,
                          axisX: real, axisY: real, dt: real): (r: CamState)
    ensures target.None? ==> r == s
    ensures r.xRotation == s.xRotation
    ensures target.Some? ==> r.yaw == s.yaw + axisX * cfg.mouseSensitivity * dt
    ensures target.Some? ==>
      r.pitch == Clamp(s.pitch - axisY * cfg.mouseSensitivity * dt, cfg.minYAngle, cfg.maxYAngle)
    ensures target.Some? && cfg.minYAngle <= cfg.maxYAngle ==> cfg.minYAngle <= r.pitch <= cfg.maxYAngle
    ensures target.Some? && axisY == 0.0 && cfg.minYAngle <= s.pitch <= cfg.maxYAngle ==>
      r.pitch == s.pitch
    ensures target.Some? ==>
      r.position == Lerp(s.position, Desired(cfg, u, target.value, r.pitch, r.yaw), cfg.smoothSpeed * dt)
    ensures target.Some? ==>
      var goal := Desired(cfg, u, target.value, r.pitch, r.yaw);
      Between(s.position.x, r.position.x, goal.x) &&
      Between(s.position.y, r.position.y, goal.y) &&
      Between(s.position.z, r.position.z, goal.z) &&
      (cfg.smoothSpeed * dt >= 1.0 ==> r.position == goal)
    ensures target.Some? ==> r.lookPoint == Some(LookPoint(target.value))
  {
    match target
    case None => s
    case Some(subject) =>
      assert axisY == 0.0 ==> axisY * cfg.mouseSensitivity * dt == 0.0;
      var yaw := s.yaw + axisX * cfg.mouseSensitivity * dt;
      var pitch := Clamp(s.pitch - axisY * cfg.mouseSensitivity * dt, cfg.minYAngle, cfg.maxYAngle);
      var goal := Desired(cfg, u, subject, pitch, yaw);
      CamState(yaw, pitch, s.xRotation, Lerp(s.position, goal, cfg.smoothSpeed * dt), Some(LookPoint(subject)))
  }

  /** One rendered frame: `Update`, then `LateUpdate`, reading the same mouse
      axes and frame time. */
  datatype Frame = Frame(target: Option<Vec3>, axisX: real, axisY: real, dt: real)

  function FrameStep(cfg: CamSettings, u: Numerics, s: CamState, f: Frame): CamState {
    LateUpdateStep(cfg, u, UpdateStep(cfg, s, f.axisY, f.dt), f.target, f.axisX, f.axisY, f.dt)
  }

  function RunFrames(cfg: CamSettings, u: Numerics, s: CamState, frames: seq<Frame>): CamState
    decreases |frames|
  {
    if frames == [] then s else RunFrames(cfg, u, FrameStep(cfg, u, s, frames[0]), frames[1..])
  }

  /** The yaw turned by the frames that had a target. */
  function YawTurned(cfg: CamSettings, frames: seq<Frame>): real
    decreases |frames|
  {
    if frames == [] then 0.0
    else
      (if frames[0].target.Some? then frames[0].axisX * cfg.mouseSensitivity * frames[0].dt else 0.0)
      + YawTurned(cfg, frames[1..])
  }

  /** The yaw is never wrapped or bounded: it is the starting yaw plus every
      turn made while a target was set. */
  lemma {:induction false} YawAccumulates(cfg: CamSettings, u: Numerics, s: CamState, frames: seq<Frame>)
    ensures RunFrames(cfg, u, s, frames).yaw == s.yaw + YawTurned(cfg, frames)
    decreases |frames|
  {
    if frames != [] {
      YawAccumulates(cfg, u, FrameStep(cfg, u, s, frames[0]), frames[1..]);
    }
  }

  /** Whatever the mouse does, the pitch stays within its bounds once it is
      within them. */
  lemma {:induction false} PitchStaysClamped(cfg: CamSettings, u: Numerics, s: CamState, frames: seq<Frame>)
    requires cfg.minYAngle <= cfg.maxYAngle
    requires cfg.minYAngle <= s.pitch <= cfg.maxYAngle
    ensures cfg.minYAngle <= RunFrames(cfg, u, s, frames).pitch <= cfg.maxYAngle
    decreases |frames|
  {
    if frames != [] {
      PitchStaysClamped(cfg, u, FrameStep(cfg, u, s, frames[0]), frames[1..]);
    }
  }

  /** Whatever the mouse does, `xRotation` is in [-90, 90] after any frame,
      and stays there if it started there. */
  lemma {:induction false} XRotationStaysClamped(cfg: CamSettings, u: Numerics, s: CamState, frames: seq<Frame>)
    requires -XRotationLimit <= s.xRotation <= XRotationLimit || |frames| > 0
    ensures -XRotationLimit <= RunFrames(cfg, u, s, frames).xRotation <= XRotationLimit
    decreases |frames|
  {
    if frames != [] {
      XRotationStaysClamped(cfg, u, FrameStep(cfg, u, s, frames[0]), frames[1..]);
    }
  }

  /** With the subject still and the mouse at rest, a frame keeps the orbit
      point where it was and every coordinate of the camera approaches it:
      its distance shrinks by the factor `1 - clamp01(smoothSpeed * dt)`,
      strictly on every axis where the camera is off the orbit point when
      `smoothSpeed * dt` is positive. */
  lemma SettledCameraApproaches(cfg: CamSettings, u: Numerics, s: CamState, subject: Vec3, dt: real)
    requires cfg.minYAngle <= s.pitch <= cfg.maxYAngle
    ensures var r := FrameStep(cfg, u, s, Frame(Some(subject), 0.0, 0.0, dt));
      var goal := Desired(cfg, u, subject, s.pitch, s.yaw);
      && r.yaw == s.yaw && r.pitch == s.pitch
      && Approaches(s.position.x, r.position.x, goal.x, cfg.smoothSpeed * dt)
      && Approaches(s.position.y, r.position.y, goal.y, cfg.smoothSpeed * dt)
      && Approaches(s.position.z, r.position.z, goal.z, cfg.smoothSpeed * dt)
  {
    IdleFrame(cfg, u, s, subject, dt);
  }

  /** A whole frame with the mouse at rest: `Update` leaves yaw, pitch and
      position alone, and `LateUpdate` then behaves as `IdleLateUpdate` says. */
  lemma IdleFrame(cfg: CamSettings, u: Numerics, s: CamState, subject: Vec3, dt: real)
    requires cfg.minYAngle <= s.pitch <= cfg.maxYAngle
    ensures var r := FrameStep(cfg, u, s, Frame(Some(subject), 0.0, 0.0, dt));
      r.yaw == s.yaw && r.pitch == s.pitch &&
      r.position == Lerp(s.position, Desired(cfg, u, subject, s.pitch, s.yaw), cfg.smoothSpeed * dt)
  {
    var mid := UpdateStep(cfg, s, 0.0, dt);
    assert mid.pitch == s.pitch && mid.yaw == s.yaw && mid.position == s.position;
    IdleLateUpdate(cfg, u, mid, subject, dt);
  }

  /** A frame with the mouse at rest keeps yaw and pitch (in range) and
      interpolates toward the unchanged orbit point. */
  lemma IdleLateUpdate(cfg: CamSettings, u: Numerics, s: CamState, subject: Vec3, dt: real)
    requires cfg.minYAngle <= s.pitch <= cfg.maxYAngle
    ensures var r := LateUpdateStep(cfg, u, s, Some(subject), 0.0, 0.0, dt);
      r.yaw == s.yaw && r.pitch == s.pitch &&
      r.position == Lerp(s.position, Desired(cfg, u, subject, s.pitch, s.yaw), cfg.smoothSpeed * dt)
  {
    var r := LateUpdateStep(cfg, u, s, Some(subject), 0.0, 0.0, dt);
    IdleAngles(cfg, u, s, subject, dt);
    assert r.position == Lerp(s.position, Desired(cfg, u, subject, r.pitch, r.yaw), cfg.smoothSpeed * dt);
  }

  /** The angle half of `IdleLateUpdate`. */
  lemma IdleAngles(cfg: CamSettings, u: Numerics, s: CamState, subject: Vec3, dt: real)
    requires cfg.minYAngle <= s.pitch <= cfg.maxYAngle
    ensures var r := LateUpdateStep(cfg, u, s, Some(subject), 0.0, 0.0, dt);
      r.yaw == s.yaw && r.pitch == s.pitch
  {
    assert 0.0 * cfg.mouseSensitivity * dt == 0.0;
  }

  /** With the default settings, a fresh camera's pitch stays within
      [-35, 60] whatever frames follow. */
  lemma DefaultPitchBounded(u: Numerics, position: Vec3, frames: seq<Frame>)
    ensures -35.0 <= RunFrames(DefaultCamSettings, u, InitialCam(position), frames).pitch <= 60.0
  {
    PitchStaysClamped(DefaultCamSettings, u, InitialCam(position), frames);
  }

  /** Where the camera looks depends on the subject alone: two cameras in
      different places and orientations look at the same point. */
  lemma LookIgnoresCamera(cfg: CamSettings, u: Numerics, s1: CamState, s2: CamState, subject: Vec3,
                          axisX: real, axisY: real, dt: real)
    ensures LateUpdateStep(cfg, u, s1, Some(subject), axisX, axisY, dt).lookPoint ==
            LateUpdateStep(cfg, u, s2, Some(subject), axisX, axisY, dt).lookPoint
  {
  }

  /** The script. */
  class CameraFollow {
    const settings: CamSettings

    var yaw: real
    var pitch: real
    var xRotation: real
    var position: Vec3
    var lookPoint: Option<Vec3>

    function State(): CamState
      reads this
    {
      CamState(yaw, pitch, xRotation, position, lookPoint)
    }

    constructor (settings: CamSettings, position: Vec3)
      ensures this.settings == settings && State() == InitialCam(position)
    {
      this.settings := settings;
      yaw := 0.0;
      pitch := 0.0;
      xRotation := 0.0;
      this.position := position;
      lookPoint := None;
    }

    method Update(axisY: real, dt: real)
      modifies this
      ensures State() == UpdateStep(settings, old(State()), axisY, dt)
    {
      var mouseY := axisY * settings.mouseSensitivity * dt;
      xRotation := xRotation - mouseY;
      xRotation := Clamp(xRotation, -XRotationLimit, XRotationLimit);
    }

    method LateUpdate(u: Numerics, target: Option<Vec3>, axisX: real, axisY: real, dt: real)
      modifies this
      ensures State() == LateUpdateStep(settings, u, old(State()), target, axisX, axisY, dt)
    {
      if target.None? {
        return;
      }
      ghost var before := State();
      ghost var after := LateUpdateStep(settings, u, before, target, axisX, axisY, dt);
      yaw := yaw + axisX * settings.mouseSensitivity * dt;
      pitch := pitch - axisY * settings.mouseSensitivity * dt;
      pitch := Clamp(pitch, settings.minYAngle, settings.maxYAngle);
      var desiredPosition := Add(target.value, u.eulerRotate(pitch, yaw, settings.offset));
      assert desiredPosition == Desired(settings, u, target.value, after.pitch, after.yaw);
      position := Lerp(position, desiredPosition, settings.smoothSpeed * dt);
      lookPoint := Some(Add(target.value, Scale(Up, LookHeight)));
    }
  }
}
