/** The slice of the game engine that the controller and the camera talk to:
    vectors, the rigid body, the animator, and the engine's numeric library.
    The numeric library is not modelled; its functions are handed to every
    step as parameters, so nothing proved here depends on what they compute. */
module Engine {

  datatype Option<T> = None | Some(value: T)

  datatype Vec2 = Vec2(x: real, y: real)
  datatype Vec3 = Vec3(x: real, y: real, z: real)

  const Zero2: Vec2 := Vec2(0.0, 0.0)
  const Zero3: Vec3 := Vec3(0.0, 0.0, 0.0)
  const Up: Vec3 := Vec3(0.0, 1.0, 0.0)

  /** The tolerance of the engine's vector equality: two 2-vectors compare
      equal when the squared length of their difference is below Epsilon². */
  const Epsilon: real := 0.00001

  function SqrMagnitude2(v: Vec2): real { v.x * v.x + v.y * v.y }
  function SqrMagnitude3(v: Vec3): real { v.x * v.x + v.y * v.y + v.z * v.z }

  /** `a == b` on the engine's 2-vectors (approximate equality). */
  predicate ApproxEqual2(a: Vec2, b: Vec2) {
    SqrMagnitude2(Vec2(a.x - b.x, a.y - b.y)) < Epsilon * Epsilon
  }

  function Add(a: Vec3, b: Vec3): Vec3 { Vec3(a.x + b.x, a.y + b.y, a.z + b.z) }
  function Scale(v: Vec3, k: real): Vec3 { Vec3(v.x * k, v.y * k, v.z * k) }

  /** `new Vector3(v.x, 0, v.z)`: the horizontal part of a velocity. */
  function Horizontal(v: Vec3): Vec3 { Vec3(v.x, 0.0, v.z) }

  /** The numeric routines of the engine that the scripts call, left
      uninterpreted:
      - smoothDamp(current, target, velocity, smoothTime) is `Vector3.SmoothDamp`
        and returns the new value and the new `ref` velocity;
      - smoothDampAngle(current, target, velocity, smoothTime) is
        `Mathf.SmoothDampAngle`, with the same shape on angles;
      - atan2Deg(a, b) is `Mathf.Atan2(a, b) * Mathf.Rad2Deg`, arguments in
        the order the caller gives them;
      - yawForward(angle) is `Quaternion.Euler(0, angle, 0) * Vector3.forward`;
      - normalized(v) is `v.normalized` (and `v.Normalize()`);
      - eulerRotate(pitch, yaw, v) is `Quaternion.Euler(pitch, yaw, 0) * v`.
      The frame time that the smoothing routines read is folded into them. */
  datatype Numerics = Numerics(
    smoothDamp: (Vec3, Vec3, Vec3, real) -> (Vec3, Vec3),
    smoothDampAngle: (real, real, real, real) -> (real, real),
    atan2Deg: (real, real) -> real,
    yawForward: real -> Vec3,
    normalized: Vec3 -> Vec3,
    eulerRotate: (real, real, Vec3) -> Vec3)

  /** A call received by the animator. */
  datatype AnimCall = SetBool(name: string, value: bool) | SetTrigger(name: string)

  /** The physics body: the scripts read and overwrite its velocity and add
      impulses to it. The engine keeps its mass positive. */
  class Rigidbody {
    var velocity: Vec3
    const mass: real

    constructor (mass: real, velocity: Vec3)
      requires mass > 0.0
      ensures this.mass == mass && this.velocity == velocity
    {
      this.mass := mass;
      this.velocity := velocity;
    }

    /** `AddForce(force, ForceMode.Impulse)`: an instantaneous change of
        velocity by force / mass. */
    method AddImpulse(force: Vec3)
      requires mass > 0.0
      modifies this
      ensures velocity == Add(old(velocity), Scale(force, 1.0 / mass))
    {
      velocity := Add(velocity, Scale(force, 1.0 / mass));
    }
  }

  /** The animation sink; it only records what it is told. */
  class Animator {
    var calls: seq<AnimCall>

    constructor ()
      ensures calls == []
    {
      calls := [];
    }

    method SetBool(name: string, value: bool)
      modifies this
      ensures calls == old(calls) + [AnimCall.SetBool(name, value)]
    {
      calls := calls + [AnimCall.SetBool(name, value)];
    }

    method SetTrigger(name: string)
      modifies this
      ensures calls == old(calls) + [AnimCall.SetTrigger(name)]
    {
      calls := calls + [AnimCall.SetTrigger(name)];
    }
  }
}
