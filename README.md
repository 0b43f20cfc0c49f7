# Third-person controller: locomotion gates and orbit camera

A Dafny model of the two per-frame scripts of a Unity third-person controller.

- `PlayerMovement3D` (module `Locomotion`, file `locomotion.dfy`) handles the player.
  - A physics tick (`FixedUpdate`) probes the ground. Then, unless `isDashing` is set (as
    written it never is, so the tick after a dash already pulls the dash velocity back toward
    the move target), it smooths the horizontal velocity toward a camera-relative target and,
    outside the dead zone, turns the body.
  - The vertical velocity is always passed through unchanged.
  - Four input callbacks store the move input (`OnMove`) and gate the jump, dash and
    attack actions.
- `CameraFollow` (module `OrbitCamera`, file `orbit_camera.dfy`) handles the camera.
  - Mouse input accumulates an unbounded yaw and a clamped pitch.
  - The camera position is interpolated toward the orbit point.
  - The camera looks at a point 1.5 units above the subject.
  - `Update` separately keeps `xRotation` clamped to [-90, 90].
- Module `Engine` (file `engine.dfy`) holds what the scripts use from the engine.
  - Vectors over `real`.
  - A `Rigidbody` class with a velocity and an impulse.
  - An `Animator` class that records the `SetBool`/`SetTrigger` calls it receives.
  - A `Numerics` record. It holds the engine's numeric routines (`SmoothDamp`,
    `SmoothDampAngle`, `Atan2·Rad2Deg`, quaternion rotation, `normalized`) as function
    values. Every step takes them as a parameter, so no result depends on what those
    routines compute.

Each script is a class whose fields are the script's fields. Each method is proved to
perform a pure step function on a snapshot of the state (`PlayerState`, `CamState`). The
properties are proved about those step functions: as their own contracts, and as lemmas
over whole runs of events (`Run`) or frames (`RunFrames`).

Inputs the engine supplies are parameters:

- the ground probe's answer (`grounded`);
- `Time.time` (`now`) and `Time.deltaTime` (`dt`);
- the camera's yaw (`camYaw`);
- the raw mouse axes (`axisX`, `axisY`);
- the target's position, `None` for a null target;
- the body's mass.

Points where the script's names promise more than its code does. The model follows the code:

- `OnDash` tests `Time.time < lastDashTime + dashCooldown` and `isDashing`
  (Assets/Script/CharacterMovement.cs:122-123). The names `dashCooldown`, `dashDuration` and
  `isDashing`, and these two guards, imply a cooldown and a mid-dash lock that work. But the
  `Dash` coroutine never sets `isDashing` and never records `lastDashTime`.
  - Both keep their initial values `false` and `-999` for the script's lifetime
    (`DashStateFrozen`).
  - So neither guard ever blocks a started dash (`DashNeverBlocked`).
  - A second dash 0.5 s after the first passes the gates, although `dashCooldown` is 1 s
    (`DashScenario`).
  - The `if (isDashing) return;` at the top of `MovePlayer` (Assets/Script/CharacterMovement.cs:61)
    never fires either. The physics tick after a dash already smooths the horizontal velocity
    away from the dash velocity toward the move target, while the coroutine is still waiting
    out `dashDuration` (`TickAfterDashSmooths`).
- `isMoving` is `moveInput != Vector2.zero`. The engine's `!=` on vectors is approximate: a
  difference whose squared length is below 10⁻¹⁰ counts as equal, so a tiny nonzero input
  leaves `isMoving` false.
- Movement's dead zone is `magnitude < 0.1`, modelled as squared length `< 0.01`. The
  dash's test is `sqrMagnitude > 0.1`. So an input of squared length between 0.01 and 0.1
  moves the player along the input, but dashes along the body's facing.
- `OnJump` calls the animator without a null check. With no animator, both velocity writes
  happen and then the call fails. `PlayerMovement3D.OnJump` reports this in its `threw` result.

## Model

| member | source | states |
|---|---|---|
| `Locomotion.TargetXZ` | Assets/Script/CharacterMovement.cs:62-79 | inside the dead zone the horizontal target is the zero vector; outside it the target is exactly `moveSpeed` times the unit heading at `Atan2(x, y)·Rad2Deg + camYaw` (the camera-relative input direction), so its squared length is `moveSpeed²` times the heading's, and exactly `moveSpeed²` when the heading has unit length |
| `Locomotion.MoveStep` | Assets/Script/CharacterMovement.cs:59-88 | while dashing nothing changes; the vertical velocity never changes; only velocity, the smoothing state and facing can change; the horizontal velocity is the smoothing of the old one toward `TargetXZ`; facing and turn velocity are untouched in the dead zone and follow the angle smoothing toward the target angle otherwise |
| `Locomotion.FixedUpdateStep` | Assets/Script/CharacterMovement.cs:53-57 | the result is exactly `MoveStep` on the old state with the stored ground flag replaced by the probe's answer, so the probe never affects movement in the same tick; vertical velocity is kept; while dashing only the ground flag changes |
| `Locomotion.MoveInputStep` | Assets/Script/CharacterMovement.cs:92-95 | the input is stored verbatim; `isMoving` holds iff the input is not equal to zero under the engine's tolerance (so false for (0,0), true outside the dead zone); nothing else changes |
| `Locomotion.JumpStep` | Assets/Script/CharacterMovement.cs:108-113 | when started and grounded, X/Z velocity is kept and Y becomes exactly the impulse `jumpForce / mass` (reset to 0, then the impulse added); otherwise nothing changes |
| `Locomotion.DashStep` | Assets/Script/CharacterMovement.cs:127-148 | horizontal velocity becomes `dashForce` times the horizontal part of the normalised dash direction; vertical velocity is kept; nothing else changes, `isDashing` and `lastDashTime` included |
| `Locomotion.OnDashStep` | Assets/Script/CharacterMovement.cs:117-126 | unless started, off cooldown and not dashing, nothing changes; otherwise the dash velocity write happens; only velocity can change |
| `Locomotion.AttackStep` | Assets/Script/CharacterMovement.cs:153-158 | an accepted attack (started and `now >= lastAttackTime + attackCooldown`) sets `lastAttackTime := now`, at least a cooldown after the previous one; a rejected one changes nothing |
| `Locomotion.DashStateFrozen` | Assets/Script/CharacterMovement.cs:117-152 | over any sequence of ticks and input events, `isDashing` and `lastDashTime` keep their starting values |
| `Locomotion.DashNeverBlocked` | Assets/Script/CharacterMovement.cs:31-32 | from a fresh script, after any event sequence, a started dash at any time `>= 0` passes all three gates (for a cooldown of at most 999 s) |
| `Locomotion.TickAfterDashSmooths` | Assets/Script/CharacterMovement.cs:53-88 | from a fresh script, after any events (a dash included), the next physics tick takes the smoothing branch: X/Z velocity and the smoothing state become exactly the smoothing of the old horizontal velocity toward `TargetXZ`; the `isDashing` skip is never taken |
| `Locomotion.AttackSpacing` | Assets/Script/CharacterMovement.cs:153-158 | along any run, consecutive accepted attacks are at least `attackCooldown` apart, the first at least a cooldown after the starting timestamp, and the final `lastAttackTime` is the last accepted time |
| `Locomotion.JumpFollowsProbe` | Assets/Script/CharacterMovement.cs:53-57 | after a physics tick, a jump fires iff it was started and the tick's ground probe found ground |
| `Locomotion.AttackScenario` | Assets/Script/CharacterMovement.cs:155-158 | attacks at t=0 and t=0.3 with the default 0.5 s cooldown: only the first is accepted and `lastAttackTime` stays 0 |
| `Locomotion.DashScenario` | Assets/Script/CharacterMovement.cs:119-125 | dashes at t=0 and t=0.5 with the default 1 s cooldown both pass the gates |
| `Locomotion.PlayerMovement3D.constructor` | Assets/Script/CharacterMovement.cs:9-36 | fresh state: zero input, not moving, not grounded, not dashing, both timestamps `-999`, zero smoothing state |
| `Locomotion.PlayerMovement3D.FixedUpdate` | Assets/Script/CharacterMovement.cs:53-57 | performs `FixedUpdateStep`: ground check, then movement |
| `Locomotion.PlayerMovement3D.CheckGround` | Assets/Script/CharacterMovement.cs:102-107 | stores the probe's answer and changes nothing else |
| `Locomotion.PlayerMovement3D.MovePlayer` | Assets/Script/CharacterMovement.cs:59-88 | performs `MoveStep` on the fields and the body's velocity |
| `Locomotion.PlayerMovement3D.OnMove` | Assets/Script/CharacterMovement.cs:92-101 | performs `MoveInputStep` and, when there is an animator, sends it `SetBool("isMoving", isMoving)` |
| `Locomotion.PlayerMovement3D.OnJump` | Assets/Script/CharacterMovement.cs:108-116 | performs `JumpStep` with the body's mass; a firing jump sends `SetTrigger("isJump")`, or fails after the velocity writes when the animator is missing |
| `Locomotion.PlayerMovement3D.OnDash` | Assets/Script/CharacterMovement.cs:117-126 | performs `OnDashStep`, testing the gates in the source's order |
| `Locomotion.PlayerMovement3D.Dash` | Assets/Script/CharacterMovement.cs:127-152 | performs `DashStep`: only the body's velocity is written |
| `Locomotion.PlayerMovement3D.OnAttack` | Assets/Script/CharacterMovement.cs:153-165 | performs `AttackStep` and, when accepted and there is an animator, sends `SetTrigger("attack")` |
| `Engine.Rigidbody.AddImpulse` | Assets/Script/CharacterMovement.cs:113 | an impulse changes velocity by force / mass |
| `Engine.Animator.SetBool` | Assets/Script/CharacterMovement.cs:99 | the call is appended to the animator's record |
| `Engine.Animator.SetTrigger` | Assets/Script/CharacterMovement.cs:161 | the call is appended to the animator's record |
| `OrbitCamera.Clamp` | Assets/Script/CameraFollow.cs:41-42 | with `min <= max` the result is in `[min, max]`; a value already in range is returned unchanged (idempotence); a value below `min` gives exactly `min`, and one above `max` (and not below `min`) exactly `max` |
| `OrbitCamera.LerpCoord` | Assets/Script/CameraFollow.cs:48 | the result `Approaches` the goal: it lies between the two coordinates; its distance to the goal is the old distance times `1 - clamp01(t)`, so no larger, and strictly smaller for `t > 0` when it started off the goal; `t >= 1` gives the goal and `t <= 0` the start |
| `OrbitCamera.Lerp` | Assets/Script/CameraFollow.cs:48 | every coordinate `Approaches` the goal's coordinate (between the two, distance scaled by `1 - clamp01(t)`, strictly smaller for `t > 0` on every axis off the goal); `t >= 1` lands exactly on the goal and `t <= 0` stays exactly at the start |
| `OrbitCamera.UpdateStep` | Assets/Script/CameraFollow.cs:27-35 | `xRotation` becomes exactly `Clamp(xRotation - mouseY·sensitivity·dt, -90, 90)`, so it ends in `[-90, 90]` and an in-range tilt is kept exactly; nothing else changes |
| `OrbitCamera.LookPoint` | Assets/Script/CameraFollow.cs:50 | the look point is the subject's position raised by 1.5 on the vertical axis |
| `OrbitCamera.LateUpdateStep` | Assets/Script/CameraFollow.cs:36-51 | a null target changes nothing; otherwise yaw grows by `mouseX·sensitivity·dt`, pitch becomes exactly `Clamp(pitch - mouseY·sensitivity·dt, minYAngle, maxYAngle)` (so it ends in range, and a zero vertical axis keeps an in-range pitch), the position becomes exactly `Lerp(position, target + rotation(pitch, yaw)·offset, smoothSpeed·dt)` with the new pitch and yaw, so it moves toward that orbit point and reaches it when `smoothSpeed·dt >= 1`, and the look point is `LookPoint(target)`; `xRotation` is untouched |
| `OrbitCamera.YawAccumulates` | Assets/Script/CameraFollow.cs:40 | after any frame sequence the yaw is the starting yaw plus the sum of the turns of the frames that had a target, with no wrapping |
| `OrbitCamera.PitchStaysClamped` | Assets/Script/CameraFollow.cs:41-42 | for any frame sequence, a pitch in `[minYAngle, maxYAngle]` stays there, given `minYAngle <= maxYAngle` |
| `OrbitCamera.XRotationStaysClamped` | Assets/Script/CameraFollow.cs:31-32 | for any frame sequence, `xRotation` is in `[-90, 90]` after at least one frame, or throughout if it started there |
| `OrbitCamera.SettledCameraApproaches` | Assets/Script/CameraFollow.cs:40-48 | with zero mouse input, a still subject and an in-range pitch, a whole frame keeps yaw and pitch, and every coordinate of the camera `Approaches` the unchanged orbit point with parameter `smoothSpeed·dt`: its distance shrinks by the factor `1 - clamp01(smoothSpeed·dt)`, strictly on every axis off the orbit point when `smoothSpeed·dt > 0` |
| `OrbitCamera.IdleFrame` | Assets/Script/CameraFollow.cs:27-48 | with zero mouse input and an in-range pitch, a whole frame (`Update`, then `LateUpdate`) keeps yaw and pitch and sets the position to `Lerp` toward the orbit point for those unchanged angles |
| `OrbitCamera.IdleLateUpdate` | Assets/Script/CameraFollow.cs:36-48 | `LateUpdate` with zero mouse input and an in-range pitch keeps yaw and pitch exactly and sets the position to `Lerp` toward the orbit point for those angles |
| `OrbitCamera.DefaultPitchBounded` | Assets/Script/CameraFollow.cs:11-12 | with the script's default settings (pitch limits -35 and 60), a fresh camera's pitch stays in `[-35, 60]` after any frame sequence |
| `OrbitCamera.LookIgnoresCamera` | Assets/Script/CameraFollow.cs:50 | the look point depends on the subject only, not on the camera's position or angles |
| `OrbitCamera.CameraFollow.constructor` | Assets/Script/CameraFollow.cs:14-19 | the settings are stored; yaw, pitch and `xRotation` start at 0 and the camera starts at the given position |
| `OrbitCamera.CameraFollow.Update` | Assets/Script/CameraFollow.cs:27-35 | performs `UpdateStep` and keeps `xRotation` in `[-90, 90]` |
| `OrbitCamera.CameraFollow.LateUpdate` | Assets/Script/CameraFollow.cs:36-51 | performs `LateUpdateStep` on the fields and the camera position |

## Left out

- Engine numerics: `Vector3.SmoothDamp`, `Mathf.SmoothDampAngle`, `Mathf.Atan2`/`Rad2Deg`, `Quaternion.Euler` rotations and `normalized`/`Normalize` are floating-point library code. They are passed in as uninterpreted functions, so nothing is proved about the values they produce (e.g. convergence of the stop branch to zero).
- Floating point: all arithmetic is exact over `real`. Rounding of `float` is not modelled.
- The ground probe `Physics.CheckSphere` (and its origin and radius) is an input boolean.
- `rb.freezeRotation`, the `Camera.main` fallback in `Awake`, and `Cursor.lockState` are left out. So are `transform.localRotation` in `Update`, `playerBody.Rotate` and the rotation that `LookAt` computes. The camera records only the point it looks at.
- The transform's rotation is modelled by its yaw alone. `transform.forward` is taken as `Quaternion.Euler(0, yaw, 0) * forward`, and reading `eulerAngles.y` back returns the stored angle, without the engine's wrapping into [0, 360).
- A missing camera reference in `MovePlayer` and `Dash` (a null dereference in the source) is not modelled. The camera's yaw is always given.
- The `WaitForSeconds(dashDuration)` wait and the coroutine scheduling are left out. Nothing follows the wait, so `dashDuration` has no effect.
- The unused field `currentVelocity` is left out.
- JumpStep: the jump's impulse is added to the velocity at once (`Engine.Rigidbody.AddImpulse`). The engine queues `AddForce(…, ForceMode.Impulse)` and applies it at the next physics step. So two jumps fired before one physics step give a vertical velocity of `2·jumpForce/mass` in the engine, but `jumpForce/mass` in the model, because the second jump's reset to 0 wipes the first impulse there.
- The animation graph is left out. The animator only records the calls it receives.
