/** The player's locomotion and action gates (the `PlayerMovement3D` script):
    a physics tick that smooths the horizontal velocity toward a
    camera-relative target, and input handlers for move, jump, dash and
    attack. The pure step functions below give the meaning of each handler on
    a snapshot of the state; the class at the end is the script itself, and
    each of its methods is proved to perform exactly its step function. */
module Locomotion {
  import opened Engine

  /** The inspector-tunable fields of the script. */
  datatype Settings = Settings(
    moveSpeed: real,
    turnSmoothTime: real,
    speedSmoothTime: real,
    jumpForce: real,
    groundDistance: real,
    dashForce: real,
    dashDuration: real,
    dashCooldown: real,
    attackCooldown: real)

  const DefaultSettings: Settings := Settings(6.0, 0.1, 0.1, 6.0, 0.3, 20.0, 0.2, 1.0, 0.5)

  /** The value both timestamps start from. */
  const NeverTime: real := -999.0

  /** The script's own fields, with the body's velocity and the yaw of its
      transform (`transform.eulerAngles.y`). */
  datatype PlayerState = PlayerState(
    moveInput: Vec2,
    isMoving: bool,
    isGrounded: bool,
    isDashing: bool,
    lastDashTime: real,
    lastAttackTime: real,
    smoothVelocityXZ: Vec3,
    turnSmoothVelocity: real,
    facing: real,
    velocity: Vec3)

  /** The state of a freshly created script on a body moving at `velocity`
      and turned to `facing`. */
  function Initial(velocity: Vec3, facing: real): PlayerState {
    PlayerState(Zero2, false, false, false, NeverTime, NeverTime, Zero3, 0.0, facing, velocity)
  }

  /** `moveInput.magnitude < 0.1`, compared on squares. */
  predicate InDeadZone(input: Vec2) {
    SqrMagnitude2(input) < 0.01
  }

  /** `moveInput.sqrMagnitude > 0.1`: the dash follows the input. */
  predicate DashFollowsInput(input: Vec2) {
    SqrMagnitude2(input) > 0.1
  }

  /** The camera-relative heading of an input, in degrees: the arc tangent
      is taken with the input's x first, then the camera's yaw is added. */
  function TargetAngle(u: Numerics, input: Vec2, camYaw: real): real {
    u.atan2Deg(input.x, input.y) + camYaw
  }

  /** The unit direction of travel for an input. */
  function Heading(u: Numerics, input: Vec2, camYaw: real): Vec3 {
    u.normalized(u.yawForward(TargetAngle(u, input, camYaw)))
  }

  /** The horizontal velocity that a physics tick smooths toward. */
  function TargetXZ(cfg: Settings, u: Numerics, input: Vec2, camYaw: real): (t: Vec3)
    ensures InDeadZone(input) ==> t == Zero3
    ensures !InDeadZone(input) ==> t == Scale(Heading(u, input, camYaw), cfg.moveSpeed)
    ensures !InDeadZone(input) ==>
      SqrMagnitude3(t) == cfg.moveSpeed * cfg.moveSpeed * SqrMagnitude3(Heading(u, input, camYaw))
    ensures !InDeadZone(input) && SqrMagnitude3(Heading(u, input, camYaw)) == 1.0 ==>
      SqrMagnitude3(t) == cfg.moveSpeed * cfg.moveSpeed
  {
    if InDeadZone(input) then Zero3 else Scale(Heading(u, input, camYaw), cfg.moveSpeed)
  }

  /** `MovePlayer`: one tick of ordinary movement. */
  function MoveStep(cfg: Settings, u: Numerics, camYaw: real, s: PlayerState): (r: PlayerState)
    ensures s.isDashing ==> r == s
    ensures r.velocity.y == s.velocity.y
    ensures r == s.(velocity := r.velocity, smoothVelocityXZ := r.smoothVelocityXZ,
                    facing := r.facing, turnSmoothVelocity := r.turnSmoothVelocity)
    ensures !s.isDashing ==>
      var next := u.smoothDamp(Horizontal(s.velocity), TargetXZ(cfg, u, s.moveInput, camYaw),
                               s.smoothVelocityXZ, cfg.speedSmoothTime);
      r.velocity.x == next.0.x && r.velocity.z == next.0.z && r.smoothVelocityXZ == next.1
    ensures InDeadZone(s.moveInput) ==> r.facing == s.facing && r.turnSmoothVelocity == s.turnSmoothVelocity
    ensures !s.isDashing && !InDeadZone(s.moveInput) ==>
      (r.facing, r.turnSmoothVelocity) ==
        u.smoothDampAngle(s.facing, TargetAngle(u, s.moveInput, camYaw), s.turnSmoothVelocity, cfg.turnSmoothTime)
  {
    if s.isDashing then s
    else if InDeadZone(s.moveInput) then
      var stop := u.smoothDamp(Horizontal(s.velocity), Zero3, s.smoothVelocityXZ, cfg.speedSmoothTime);
      s.(smoothVelocityXZ := stop.1, velocity := Vec3(stop.0.x, s.velocity.y, stop.0.z))
    else
      var targetAngle := TargetAngle(u, s.moveInput, camYaw);
      var turned := u.smoothDampAngle(s.facing, targetAngle, s.turnSmoothVelocity, cfg.turnSmoothTime);
      var targetXZ := Scale(u.normalized(u.yawForward(targetAngle)), cfg.moveSpeed);
      var next := u.smoothDamp(Horizontal(s.velocity), targetXZ, s.smoothVelocityXZ, cfg.speedSmoothTime);
      s.(facing := turned.0, turnSmoothVelocity := turned.1,
         smoothVelocityXZ := next.1, velocity := Vec3(next.0.x, s.velocity.y, next.0.z))
  }

  /** `FixedUpdate`: probe the ground, then move. */
  function FixedUpdateStep(cfg: Settings, u: Numerics, s: PlayerState, grounded: bool, camYaw: real): (r: PlayerState)
    ensures r.isGrounded == grounded
    ensures r == MoveStep(cfg, u, camYaw, s).(isGrounded := grounded)
    ensures r.velocity.y == s.velocity.y
    ensures s.isDashing ==> r == s.(isGrounded := grounded)
  {
    MoveStep(cfg, u, camYaw, s.(isGrounded := grounded))
  }

  /** `OnMove`: store the input; the engine's `!=` on vectors is approximate. */
  function MoveInputStep(s: PlayerState, input: Vec2): (r: PlayerState)
    ensures r.moveInput == input
    ensures r.isMoving <==> !ApproxEqual2(input, Zero2)
    ensures input == Zero2 ==> !r.isMoving
    ensures !InDeadZone(input) ==> r.isMoving
    ensures r == s.(moveInput := input, isMoving := r.isMoving)
  {
    s.(moveInput := input, isMoving := !ApproxEqual2(input, Zero2))
  }

  /** What `OnMove` tells the animator. */
  function MoveInputCalls(input: Vec2): seq<AnimCall> {
    [AnimCall.SetBool("isMoving", !ApproxEqual2(input, Zero2))]
  }

  predicate JumpFires(s: PlayerState, started: bool) {
    started && s.isGrounded
  }

  /** `OnJump` on a body of the given mass: the vertical velocity is reset,
      then the upward impulse `jumpForce` is added. */
  function JumpStep(cfg: Settings, mass: real, s: PlayerState, started: bool): (r: PlayerState)
    requires mass > 0.0
    ensures JumpFires(s, started) ==>
      r == s.(velocity := Vec3(s.velocity.x, cfg.jumpForce / mass, s.velocity.z))
    ensures !JumpFires(s, started) ==> r == s
  {
    if JumpFires(s, started) then
      var reset := Vec3(s.velocity.x, 0.0, s.velocity.z);
      s.(velocity := Add(reset, Scale(Scale(Up, cfg.jumpForce), 1.0 / mass)))
    else s
  }

  function JumpCalls(s: PlayerState, started: bool): seq<AnimCall> {
    if JumpFires(s, started) then [AnimCall.SetTrigger("isJump")] else []
  }

  /** The three gates of `OnDash`, in the order the handler tests them. */
  predicate DashAllowed(cfg: Settings, s: PlayerState, started: bool, now: real) {
    started && !(now < s.lastDashTime + cfg.dashCooldown) && !s.isDashing
  }

  /** The direction of a dash: camera-relative along the input when the input
      is large enough, otherwise the transform's forward; then normalised. */
  function DashDirection(u: Numerics, s: PlayerState, camYaw: real): Vec3 {
    u.normalized(
      if DashFollowsInput(s.moveInput) then u.yawForward(TargetAngle(u, s.moveInput, camYaw))
      else u.yawForward(s.facing))
  }

  /** The part of the `Dash` coroutine that runs before its wait: the velocity
      write. Nothing else is touched. */
  function DashStep(cfg: Settings, u: Numerics, s: PlayerState, camYaw: real): (r: PlayerState)
    ensures r.velocity.y == s.velocity.y
    ensures Horizontal(r.velocity) == Scale(Horizontal(DashDirection(u, s, camYaw)), cfg.dashForce)
    ensures r == s.(velocity := r.velocity)
  {
    var dir := DashDirection(u, s, camYaw);
    s.(velocity := Vec3(dir.x * cfg.dashForce, s.velocity.y, dir.z * cfg.dashForce))
  }

  /** `OnDash`. */
  function OnDashStep(cfg: Settings, u: Numerics, s: PlayerState, started: bool, now: real, camYaw: real): (r: PlayerState)
    ensures !DashAllowed(cfg, s, started, now) ==> r == s
    ensures DashAllowed(cfg, s, started, now) ==>
      r.velocity.y == s.velocity.y &&
      Horizontal(r.velocity) == Scale(Horizontal(DashDirection(u, s, camYaw)), cfg.dashForce)
    ensures r == s.(velocity := r.velocity)
  {
    if !started then s
    else if now < s.lastDashTime + cfg.dashCooldown then s
    else if s.isDashing then s
    else DashStep(cfg, u, s, camYaw)
  }

  predicate AttackAccepted(cfg: Settings, s: PlayerState, started: bool, now: real) {
    started && !(now < s.lastAttackTime + cfg.attackCooldown)
  }

  /** `OnAttack`: the timestamp moves only when the attack is accepted. */
  function AttackStep(cfg: Settings, s: PlayerState, started: bool, now: real): (r: PlayerState)
    ensures AttackAccepted(cfg, s, started, now) ==>
      r == s.(lastAttackTime := now) && s.lastAttackTime + cfg.attackCooldown <= r.lastAttackTime
    ensures !AttackAccepted(cfg, s, started, now) ==> r == s
  {
    if !started then s
    else if now < s.lastAttackTime + cfg.attackCooldown then s
    else s.(lastAttackTime := now)
  }

  function AttackCalls(cfg: Settings, s: PlayerState, started: bool, now: real): seq<AnimCall> {
    if AttackAccepted(cfg, s, started, now) then [AnimCall.SetTrigger("attack")] else []
  }

  /** Everything that can happen to the script: a physics tick with the
      ground probe's answer, and the four input callbacks. `now` is the
      engine's `Time.time`, `camYaw` the camera's yaw at that moment. */
  datatype Event =
    | Tick(grounded: bool, camYaw: real)
    | Move(input: Vec2)
    | Jump(started: bool)
    | Dash(started: bool, now: real, camYaw: real)
    | Attack(started: bool, now: real)

  function Apply(cfg: Settings, u: Numerics, mass: real, s: PlayerState, e: Event): PlayerState
    requires mass > 0.0
  {
    match e
    case Tick(grounded, camYaw) => FixedUpdateStep(cfg, u, s, grounded, camYaw)
    case Move(input) => MoveInputStep(s, input)
    case Jump(started) => JumpStep(cfg, mass, s, started)
    case Dash(started, now, camYaw) => OnDashStep(cfg, u, s, started, now, camYaw)
    case Attack(started, now) => AttackStep(cfg, s, started, now)
  }

  function Run(cfg: Settings, u: Numerics, mass: real, s: PlayerState, events: seq<Event>): PlayerState
    requires mass > 0.0
    decreases |events|
  {
    if events == [] then s else Run(cfg, u, mass, Apply(cfg, u, mass, s, events[0]), events[1..])
  }

  /** The times at which attacks were accepted along a run. */
  function AcceptedAttacks(cfg: Settings, u: Numerics, mass: real, s: PlayerState, events: seq<Event>): seq<real>
    requires mass > 0.0
    decreases |events|
  {
    if events == [] then []
    else
      var rest := AcceptedAttacks(cfg, u, mass, Apply(cfg, u, mass, s, events[0]), events[1..]);
      match events[0]
      case Attack(started, now) => if AttackAccepted(cfg, s, started, now) then [now] + rest else rest
      case _ => rest
  }

  /** The dash flags are never written: no event changes them, so over any run
      they keep the values they started with. */
  lemma {:induction false} DashStateFrozen(cfg: Settings, u: Numerics, mass: real, s: PlayerState, events: seq<Event>)
    requires mass > 0.0
    ensures Run(cfg, u, mass, s, events).isDashing == s.isDashing
    ensures Run(cfg, u, mass, s, events).lastDashTime == s.lastDashTime
    decreases |events|
  {
    if events != [] {
      var next := Apply(cfg, u, mass, s, events[0]);
      assert next.isDashing == s.isDashing && next.lastDashTime == s.lastDashTime;
      DashStateFrozen(cfg, u, mass, next, events[1..]);
    }
  }

  /** Consequently, from a fresh script, every started dash request at a
      non-negative time passes all three gates: the cooldown and the mid-dash
      guard never block. */
  lemma DashNeverBlocked(cfg: Settings, u: Numerics, mass: real, velocity: Vec3, facing: real,
                         events: seq<Event>, now: real)
    requires mass > 0.0
    requires cfg.dashCooldown <= -NeverTime
    requires now >= 0.0
    ensures DashAllowed(cfg, Run(cfg, u, mass, Initial(velocity, facing), events), true, now)
  {
    DashStateFrozen(cfg, u, mass, Initial(velocity, facing), events);
  }

  /** Likewise the movement's `isDashing` skip never fires: from a fresh
      script, after any events (a dash among them, or last), the next
      physics tick smooths the horizontal velocity toward the move target,
      so a dash's velocity is pulled back at once rather than held for
      `dashDuration`. */
  lemma TickAfterDashSmooths(cfg: Settings, u: Numerics, mass: real, velocity: Vec3, facing: real,
                             events: seq<Event>, grounded: bool, camYaw: real)
    requires mass > 0.0
    ensures var s := Run(cfg, u, mass, Initial(velocity, facing), events);
      var r := FixedUpdateStep(cfg, u, s, grounded, camYaw);
      var next := u.smoothDamp(Horizontal(s.velocity), TargetXZ(cfg, u, s.moveInput, camYaw),
                               s.smoothVelocityXZ, cfg.speedSmoothTime);
      r.velocity.x == next.0.x && r.velocity.z == next.0.z && r.smoothVelocityXZ == next.1
  {
    DashStateFrozen(cfg, u, mass, Initial(velocity, facing), events);
  }

  /** Accepted attacks are spaced by at least the cooldown, starting from the
      timestamp the run began with, and the final timestamp is the last of
      them. */
  lemma {:induction false} AttackSpacing(cfg: Settings, u: Numerics, mass: real, s: PlayerState, events: seq<Event>)
    requires mass > 0.0
    ensures var log := AcceptedAttacks(cfg, u, mass, s, events);
      (|log| > 0 ==> s.lastAttackTime + cfg.attackCooldown <= log[0]) &&
      (forall i :: 0 < i < |log| ==> log[i - 1] + cfg.attackCooldown <= log[i]) &&
      Run(cfg, u, mass, s, events).lastAttackTime == (if |log| == 0 then s.lastAttackTime else log[|log| - 1])
    decreases |events|
  {
    if events != [] {
      var next := Apply(cfg, u, mass, s, events[0]);
      AttackSpacing(cfg, u, mass, next, events[1..]);
      var rest := AcceptedAttacks(cfg, u, mass, next, events[1..]);
      var log := AcceptedAttacks(cfg, u, mass, s, events);
      match events[0]
      case Attack(started, now) =>
        if AttackAccepted(cfg, s, started, now) {
          assert log == [now] + rest;
          assert next.lastAttackTime == now;
          forall i | 0 < i < |log| ensures log[i - 1] + cfg.attackCooldown <= log[i] {
            if i > 1 { assert log[i - 1] == rest[i - 2] && log[i] == rest[i - 1]; }
          }
        } else {
          assert log == rest && next == s;
        }
      case _ =>
        assert log == rest && next.lastAttackTime == s.lastAttackTime;
    }
  }

  /** The ground probe of a tick decides the next jump: after `FixedUpdate`
      a jump fires exactly when it was started and the probe found ground. */
  lemma JumpFollowsProbe(cfg: Settings, u: Numerics, s: PlayerState, grounded: bool, camYaw: real, started: bool)
    ensures JumpFires(FixedUpdateStep(cfg, u, s, grounded, camYaw), started) <==> started && grounded
  {
  }

  /** Two attacks 0.3 s apart with the default 0.5 s cooldown: the first is
      accepted, the second rejected, and the timestamp stays at the first. */
  lemma AttackScenario(u: Numerics, mass: real, velocity: Vec3, facing: real)
    requires mass > 0.0
    ensures var events := [Event.Attack(true, 0.0), Event.Attack(true, 0.3)];
      AcceptedAttacks(DefaultSettings, u, mass, Initial(velocity, facing), events) == [0.0] &&
      Run(DefaultSettings, u, mass, Initial(velocity, facing), events).lastAttackTime == 0.0
  {
  }

  /** A dash at time 0 followed by one at 0.5 with the default 1 s cooldown:
      as written, both pass the gates, because the coroutine never records
      the dash time. */
  lemma DashScenario(u: Numerics, mass: real, velocity: Vec3, facing: real, camYaw: real)
    requires mass > 0.0
    ensures var s1 := Run(DefaultSettings, u, mass, Initial(velocity, facing), [Event.Dash(true, 0.0, camYaw)]);
      DashAllowed(DefaultSettings, Initial(velocity, facing), true, 0.0) &&
      DashAllowed(DefaultSettings, s1, true, 0.5)
  {
  }

  /** The script. Its rigid body and animator are separate components; the
      animator may be missing. Every method performs its step function. */
  class PlayerMovement3D {
    const settings: Settings
    const rb: Rigidbody
    const animator: Animator?

    var moveInput: Vec2
    var isMoving: bool
    var isGrounded: bool
    var isDashing: bool
    var lastDashTime: real
    var lastAttackTime: real
    var smoothVelocityXZ: Vec3
    var turnSmoothVelocity: real
    /** The yaw of the transform, which in this model only `MovePlayer`
        turns (`playerBody.Rotate` in the camera script is left out). */
    var facing: real

    predicate Valid() {
      rb.mass > 0.0
    }

    function State(): PlayerState
      reads this, rb
    {
      PlayerState(moveInput, isMoving, isGrounded, isDashing, lastDashTime, lastAttackTime,
                  smoothVelocityXZ, turnSmoothVelocity, facing, rb.velocity)
    }

    constructor (settings: Settings, rb: Rigidbody, animator: Animator?, facing: real)
      requires rb.mass > 0.0
      ensures Valid()
      ensures this.settings == settings && this.rb == rb && this.animator == animator
      ensures State() == Initial(rb.velocity, facing)
    {
      this.settings := settings;
      this.rb := rb;
      this.animator := animator;
      moveInput := Zero2;
      isMoving := false;
      isGrounded := false;
      isDashing := false;
      lastDashTime := NeverTime;
      lastAttackTime := NeverTime;
      smoothVelocityXZ := Zero3;
      turnSmoothVelocity := 0.0;
      this.facing := facing;
    }

    method FixedUpdate(u: Numerics, grounded: bool, camYaw: real)
      modifies this, rb
      ensures State() == FixedUpdateStep(settings, u, old(State()), grounded, camYaw)
    {
      CheckGround(grounded);
      MovePlayer(u, camYaw);
    }

    /** The ground probe's answer is an input. */
    method CheckGround(grounded: bool)
      modifies this
      ensures State() == old(State()).(isGrounded := grounded)
    {
      isGrounded := grounded;
    }

    method MovePlayer(u: Numerics, camYaw: real)
      modifies this, rb
      ensures State() == MoveStep(settings, u, camYaw, old(State()))
    {
      if isDashing {
        return;
      }
      if SqrMagnitude2(moveInput) < 0.01 {
        var stop := u.smoothDamp(Vec3(rb.velocity.x, 0.0, rb.velocity.z), Zero3,
                                 smoothVelocityXZ, settings.speedSmoothTime);
        smoothVelocityXZ := stop.1;
        rb.velocity := Vec3(stop.0.x, rb.velocity.y, stop.0.z);
        return;
      }
      var targetAngle := u.atan2Deg(moveInput.x, moveInput.y) + camYaw;
      var turned := u.smoothDampAngle(facing, targetAngle, turnSmoothVelocity, settings.turnSmoothTime);
      turnSmoothVelocity := turned.1;
      facing := turned.0;
      var moveDir := u.yawForward(targetAngle);
      var targetXZ := Scale(u.normalized(moveDir), settings.moveSpeed);
      var next := u.smoothDamp(Vec3(rb.velocity.x, 0.0, rb.velocity.z), targetXZ,
                               smoothVelocityXZ, settings.speedSmoothTime);
      smoothVelocityXZ := next.1;
      rb.velocity := Vec3(next.0.x, rb.velocity.y, next.0.z);
    }

    method OnMove(input: Vec2)
      modifies this, animator
      ensures State() == MoveInputStep(old(State()), input)
      ensures animator != null ==> animator.calls == old(animator.calls) + MoveInputCalls(input)
    {
      moveInput := input;
      isMoving := !ApproxEqual2(moveInput, Zero2);
      if animator != null {
        animator.SetBool("isMoving", isMoving);
      }
    }

    /** `threw` reports the null dereference of a missing animator, which
        happens after both velocity writes. */
    method OnJump(started: bool) returns (threw: bool)
      requires Valid()
      modifies rb, animator
      ensures State() == JumpStep(settings, rb.mass, old(State()), started)
      ensures threw <==> JumpFires(old(State()), started) && animator == null
      ensures animator != null ==> animator.calls == old(animator.calls) + JumpCalls(old(State()), started)
    {
      threw := false;
      if started && isGrounded {
        rb.velocity := Vec3(rb.velocity.x, 0.0, rb.velocity.z);
        rb.AddImpulse(Scale(Up, settings.jumpForce));
        if animator == null {
          threw := true;
          return;
        }
        animator.SetTrigger("isJump");
      }
    }

    method OnDash(u: Numerics, started: bool, now: real, camYaw: real)
      modifies rb
      ensures State() == OnDashStep(settings, u, old(State()), started, now, camYaw)
    {
      if !started {
        return;
      }
      if now < lastDashTime + settings.dashCooldown {
        return;
      }
      if isDashing {
        return;
      }
      Dash(u, camYaw);
    }

    /** The coroutine up to its wait; what follows the wait is empty. */
    method Dash(u: Numerics, camYaw: real)
      modifies rb
      ensures State() == DashStep(settings, u, old(State()), camYaw)
    {
      var dashDir: Vec3;
      if SqrMagnitude2(moveInput) > 0.1 {
        var targetAngle := u.atan2Deg(moveInput.x, moveInput.y) + camYaw;
        dashDir := u.yawForward(targetAngle);
      } else {
        dashDir := u.yawForward(facing);
      }
      dashDir := u.normalized(dashDir);
      rb.velocity := Vec3(dashDir.x * settings.dashForce, rb.velocity.y, dashDir.z * settings.dashForce);
    }

    method OnAttack(started: bool, now: real)
      modifies this, animator
      ensures State() == AttackStep(settings, old(State()), started, now)
      ensures animator != null ==>
        animator.calls == old(animator.calls) + AttackCalls(settings, old(State()), started, now)
    {
      if !started {
        return;
      }
      if now < lastAttackTime + settings.attackCooldown {
        return;
      }
      lastAttackTime := now;
      if animator != null {
        animator.SetTrigger("attack");
      }
    }
  }
}
