/** The controller object: its fields are updated in place by Event, which also moves and turns
    the caller's camera. Event is proved against Step, Moved and Look. */
module CameraController {
  import opened Numerics
  import opened KeyFlags
  import opened ControllerSpec
  import Camera

  class CameraController {
    var yaw: real
    var pitch: real
    var keys: Keys
    var direction: Vec3
    var velocity: real

    /** The fields as a value. */
    function State(): Controller
      reads this
    {
      Controller(yaw, pitch, keys, direction, velocity)
    }

    /** The object invariant: the fields form a state reachable from the initial one. */
    ghost predicate Valid()
      reads this
    {
      Invariant(State())
    }

    /** `CameraController::new()`: no key held, no direction, walking speed, looking ahead. */
    constructor ()
      ensures State() == New() && Valid()
      ensures forall f: Flag :: !Contains(keys, f)
    {
      yaw := 0.0;
      pitch := 0.0;
      keys := EMPTY;
      direction := [0.0, 0.0, 0.0];
      velocity := 1.0;
    }

    /** `event`: one event against the controller and the camera. `sin` and `cos` stand for
        f32::sin and f32::cos, which only the Update arm uses. */
    method Event(e: GameEvent, camera: Camera.Camera, sin: real -> real, cos: real -> real)
      modifies this, camera
      ensures State() == Step(old(State()), e)
      ensures old(Valid()) ==> Valid()
      ensures camera.position ==
        if e.Update? then Moved(old(camera.position), old(State()), e.dt, sin(old(yaw)), cos(old(yaw)))
        else old(camera.position)
      ensures e.MouseRelativeMove? ==> camera.yaw == yaw && camera.pitch == pitch
      ensures !e.MouseRelativeMove? ==> camera.yaw == old(camera.yaw) && camera.pitch == old(camera.pitch)
    {
      match e {
      case Update(dt) => OnUpdate(dt, camera, sin(yaw), cos(yaw));
      case MouseRelativeMove(dx, dy) => OnMouseMove(dx, dy, camera);
      case KeyPress(k) => OnKeyPress(k);
      case KeyRelease(k) => OnKeyRelease(k);
      case OtherEvent =>
      }
      if old(Valid()) {
        StepPreservesInvariant(old(State()), e);
      }
    }

    /** The Update arm: move the camera along the direction rotated by the yaw, whose sine and
        cosine are `s` and `c`. */
    method OnUpdate(dt: real, camera: Camera.Camera, s: real, c: real)
      modifies camera
      ensures camera.position == Moved(old(camera.position), State(), dt, s, c)
      ensures camera.yaw == old(camera.yaw) && camera.pitch == old(camera.pitch)
    {
      ghost var moved := Moved(camera.position, State(), dt, s, c);
      var dh := dt * velocity * 3.0;
      var dx, dy, dz := direction[0], direction[1], direction[2];
      camera.position := camera.position[0 := camera.position[0] + (s * dx - c * dz) * dh];
      camera.position := camera.position[1 := camera.position[1] + dy * dt * 4.0];
      camera.position := camera.position[2 := camera.position[2] + (s * dz + c * dx) * dh];
      assert camera.position[0] == moved[0] && camera.position[1] == moved[1] && camera.position[2] == moved[2];
    }

    /** The MouseRelativeMove arm: turn, clamp the pitch, and hand the new orientation on. */
    method OnMouseMove(dx: real, dy: real, camera: Camera.Camera)
      modifies this, camera
      ensures State() == Look(old(State()), dx, dy)
      ensures camera.yaw == yaw && camera.pitch == pitch && camera.position == old(camera.position)
    {
      yaw := RemTwoPi(yaw - dx / 360.0 * PI / 4.0);
      pitch := pitch + dy / 360.0 * PI / 4.0;
      pitch := Max(Min(pitch, PI / 2.0), -PI / 2.0);
      camera.SetYawPitch(yaw, pitch);
    }

    /** The KeyPress arm. */
    method OnKeyPress(k: Key)
      modifies this
      ensures State() == Press(old(State()), k)
    {
      var dx, dy, dz := direction[0], direction[1], direction[2];
      match k {
      case W => PressSet(MoveForward, -1.0, dy, dz);
      case S => PressSet(MoveBack, 1.0, dy, dz);
      case A => PressSet(StrafeLeft, dx, dy, 1.0);
      case D => PressSet(StrafeRight, dx, dy, -1.0);
      case Space => PressSet(FlyUp, dx, 1.0, dz);
      case LShift => PressSet(FlyDown, dx, -1.0, dz);
      case LCtrl => velocity := 2.0;
      case Unrecognised(_) =>
      }
    }

    /** The KeyRelease arm. */
    method OnKeyRelease(k: Key)
      modifies this
      ensures State() == Release(old(State()), k)
    {
      var dx, dy, dz := direction[0], direction[1], direction[2];
      match k {
      case W => var v := ReleaseKey(MoveForward, MoveBack, 1.0); ReleaseSet(v, dy, dz);
      case S => var v := ReleaseKey(MoveBack, MoveForward, -1.0); ReleaseSet(v, dy, dz);
      case A => var v := ReleaseKey(StrafeLeft, StrafeRight, -1.0); ReleaseSet(dx, dy, v);
      case D => var v := ReleaseKey(StrafeRight, StrafeLeft, 1.0); ReleaseSet(dx, dy, v);
      case Space => var v := ReleaseKey(FlyUp, FlyDown, -1.0); ReleaseSet(dx, v, dz);
      case LShift => var v := ReleaseKey(FlyDown, FlyUp, 1.0); ReleaseSet(dx, v, dz);
      case LCtrl => velocity := 1.0;
      case Unrecognised(_) =>
      }
    }

    /** The press arm's `set` closure: rewrite the direction and insert the pressed key's flag. */
    method PressSet(k: Flag, x: real, y: real, z: real)
      modifies this
      ensures direction == Normalise(x, y, z) && keys == Insert(old(keys), k)
      ensures yaw == old(yaw) && pitch == old(pitch) && velocity == old(velocity)
    {
      direction := Normalise(x, y, z);
      keys := Insert(keys, k);
    }

    /** The release arm's `set` closure: rewrite the direction. */
    method ReleaseSet(x: real, y: real, z: real)
      modifies this
      ensures direction == Normalise(x, y, z)
      ensures keys == old(keys) && yaw == old(yaw) && pitch == old(pitch) && velocity == old(velocity)
    {
      direction := Normalise(x, y, z);
    }

    /** The `release` closure: remove `key`, then yield `revVal` if `revKey` is still held. */
    method ReleaseKey(key: Flag, revKey: Flag, revVal: real) returns (v: real)
      modifies this
      ensures keys == Remove(old(keys), key)
      ensures v == if Contains(keys, revKey) then revVal else 0.0
      ensures direction == old(direction) && yaw == old(yaw) && pitch == old(pitch) && velocity == old(velocity)
    {
      keys := Remove(keys, key);
      v := if Contains(keys, revKey) then revVal else 0.0;
    }
  }

  /** A caller's view: from a fresh controller and a camera at the origin looking ahead,
      pressing forward and ticking one second moves the camera to (0, 0, -3). */
  method ForwardThenTick(sin: real -> real, cos: real -> real) returns (position: Vec3)
    requires sin(0.0) == 0.0 && cos(0.0) == 1.0
    ensures position == [0.0, 0.0, -3.0]
  {
    var controller := new CameraController();
    var camera := new Camera.Camera([0.0, 0.0, 0.0], 0.0, 0.0);
    controller.Event(KeyPress(W), camera, sin, cos);
    controller.Event(Update(1.0), camera, sin, cos);
    position := camera.position;
  }
}
