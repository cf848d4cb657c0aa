# First-person camera controller

A Dafny model of `CameraController` from `src/camera_controller.rs`: the controller that turns
key presses, key releases, relative mouse motion and frame updates into a look orientation
(yaw, pitch), a movement direction, a sprint multiplier and a new camera position.

The model has six modules:

- `Numerics` (`numerics.dfy`): the three-component `Vec3`, the f32 constants `SQRT2` and `PI`
  as the exact reals they denote, the `sgn` closure, Rust's float `%` by `2.0 * PI` (truncated
  remainder), and `f32::min`/`f32::max`.
- `KeyFlags` (`key_flags.dfy`): the `Keys` bitflags as a `bv8` with the declared bit of each of
  the six flags, and `contains`, `insert` and `remove`.
- `Camera` (`camera.dfy`): the caller's camera, reduced to the position the controller moves and
  the orientation it passes to `set_yaw_pitch`.
- `ControllerSpec` (`controller_spec.dfy`): the controller state as a value and each arm of
  `event` as a function (`Press`, `Release`, `Look`, `Moved`, `Step`), with the invariant that
  ties the direction to the held keys, proved for every sequence of events from `new()`.
- `ControllerProperties` (`controller_properties.dfy`): properties that relate several events:
  idempotence, release of a key that is not held, last-press-wins, the diagonal, the update's
  linearity, the composition of event sequences, and concrete event sequences.
- `CameraController` (`camera_controller.dfy`): the controller as a class whose `Event` method
  updates the fields and the camera in place, one method per match arm and per closure, proved
  equal to `Step`, `Look` and `Moved`.

Axis assignment follows the code: W/S write `direction[0]` (W gives -1, S +1), A/D write
`direction[2]` (A +1, D -1), Space/LShift write `direction[1]` (Space +1, LShift -1).

Behaviour of the code worth knowing:

- Yaw is reduced with Rust's truncating `%`, so it keeps the sign of its argument and lies in
  (-2pi, 2pi), not in [0, 2pi). `LookEighthTurn` shows a yaw of -PI/4.
- The forward/back keys drive `direction[0]`, not the z component; the update's rotation still
  sends pressing W at yaw 0 to a step along -z (`ForwardTick`).
- The direction is not recomputed from the key set: each press overwrites its axis
  (`LastPressWins` gives two states with the same keys and opposite directions).
- Releasing a key that is not held is a no-op only in reachable states
  (`ReleaseOfUnheldKeyIsNoop`); on an arbitrary state it still rewrites its axis.
- The sprint multiplier scales only the horizontal step; the vertical step ignores it.

## Model

| member | source | states |
|---|---|---|
| Numerics.Sgn | src/camera_controller.rs:71 | zero maps to zero, positive to 1, negative to -1, and only those |
| Numerics.Trunc | src/camera_controller.rs:62 | rounds toward zero: within one of its argument, on the zero side |
| Numerics.RemTwoPi | src/camera_controller.rs:62 | the `% (2.0 * PI)` result lies in (-2pi, 2pi), keeps the dividend's sign, is the identity on (-2pi, 2pi), and differs from the dividend by a whole number of turns |
| Numerics.Min | src/camera_controller.rs:64 | the result is one of the operands and no larger than either |
| Numerics.Max | src/camera_controller.rs:64 | the result is one of the operands and no smaller than either |
| KeyFlags.Bits | src/camera_controller.rs:14-19 | each flag is declared as a single bit within the six declared bits |
| KeyFlags.BitsDisjoint | src/camera_controller.rs:14-19 | different flags never share a bit |
| KeyFlags.EmptyHoldsNothing | src/camera_controller.rs:35 | `Keys::empty()` holds no flag and no undeclared bit |
| KeyFlags.Contains | src/camera_controller.rs:110 | a flag is held exactly when its bit is set (each flag is a single bit) |
| KeyFlags.Insert | src/camera_controller.rs:80 | afterwards the flag is held, every other flag is unchanged, and no undeclared bit appears |
| KeyFlags.Remove | src/camera_controller.rs:109 | afterwards the flag is not held, every other flag is unchanged, and no undeclared bit appears |
| ControllerSpec.FlagOf | src/camera_controller.rs:84-89 | W and S own component 0, Space and LShift component 1, A and D component 2, and W, D and LShift are the keys that write -1 |
| ControllerSpec.SignOf | src/camera_controller.rs:84-89 | every flag's key writes +1 or -1 to its component |
| ControllerSpec.AxisOf | src/camera_controller.rs:84-89 | each flag drives one of the three direction components |
| ControllerSpec.Opposite | src/camera_controller.rs:114-119 | each flag's release partner is a different flag on the same component with the opposite sign |
| ControllerSpec.Normalise | src/camera_controller.rs:72-79 | the vertical input passes through, the horizontal components keep their inputs' signs, and the horizontal pair comes out axial or diagonal (+-1/SQRT2 each) |
| ControllerSpec.NormaliseDependsOnSigns | src/camera_controller.rs:73 | only the signs of the horizontal inputs matter |
| ControllerSpec.NormaliseFixesNormalised | src/camera_controller.rs:99-106 | re-normalising an already normalised direction leaves it unchanged |
| ControllerSpec.HorizontalLength | src/camera_controller.rs:74-79 | the squared horizontal length of a normalised direction is 0, 1 or 2/SQRT2^2, and the last is within 1e-7 above 1 |
| ControllerSpec.PressSet | src/camera_controller.rs:72-81 | the press `set` closure holds the flag and leaves the other flags, the orientation and the speed alone; the new direction has the given vertical value, the given horizontal signs and a normalised horizontal pair |
| ControllerSpec.Press | src/camera_controller.rs:67-93 | a movement key is inserted, its component takes the key's sign, the other components keep their signs (the vertical one its value), the pair is normalised and orientation and speed are unchanged; LCtrl only sets velocity to 2; other keys change nothing |
| ControllerSpec.ReleaseKey | src/camera_controller.rs:108-111 | the `release` closure drops the flag and keeps every other flag; it yields the given value exactly when the opposite flag was held before the call, and 0 otherwise |
| ControllerSpec.ReleaseArm | src/camera_controller.rs:99-119 | one release arm removes the flag, sets its component to the opposite key's sign if that key is still held and to 0 otherwise, keeps the other components' signs and normalises |
| ControllerSpec.Release | src/camera_controller.rs:94-123 | a movement key is removed and its component falls back to the still-held opposite key or to 0, the rest as for Press; LCtrl only sets velocity to 1; other keys change nothing |
| ControllerSpec.LookAngle | src/camera_controller.rs:62-63 | mouse units turn into radians at PI/1440 each (360 units are PI/4) and keep their sign |
| ControllerSpec.Look | src/camera_controller.rs:61-66 | pitch is the clamped sum, always within [-pi/2, pi/2]; yaw lies in (-2pi, 2pi), is a whole number of turns from the turned yaw and keeps its sign; keys, direction and velocity are unchanged |
| ControllerSpec.Moved | src/camera_controller.rs:51-59 | the vertical step is direction[1]*dt*4; the horizontal step projected on the horizontal direction is dh*s*n and on its perpendicular -(dh*c*n), where dh = dt*velocity*3 and n the squared horizontal direction (this fixes the sense of the yaw rotation); a zero horizontal direction gives no horizontal step for any sine and cosine, and a zero direction leaves the position alone; when the sine and cosine satisfy s^2 + c^2 = 1, the squared horizontal step is the squared horizontal direction times (dt*velocity*3)^2 |
| ControllerSpec.Step | src/camera_controller.rs:50-125 | update and unrecognised events leave the controller unchanged, mouse motion touches only the orientation, key events leave the orientation alone |
| ControllerSpec.Run | src/camera_controller.rs:41-126 | a sequence of only updates and ignored events changes nothing, one without key events keeps keys, direction and velocity, and one without mouse motion keeps the orientation |
| ControllerSpec.New | src/camera_controller.rs:31-39 | the initial state holds no key and satisfies the invariant |
| ControllerSpec.PressPreservesInvariant | src/camera_controller.rs:84-89 | a movement-key press keeps every component's sign in agreement with the held keys |
| ControllerSpec.ReleasePreservesInvariant | src/camera_controller.rs:114-119 | a movement-key release keeps every component's sign in agreement with the held keys |
| ControllerSpec.StepPreservesInvariant | src/camera_controller.rs:50-125 | every event keeps the invariant: normalised direction, signs agreeing with the keys, velocity 1 or 2, pitch within the poles, yaw within one turn |
| ControllerSpec.RunPreservesInvariant | src/camera_controller.rs:41-126 | every sequence of events keeps the invariant |
| ControllerSpec.Reachable | src/camera_controller.rs:31-126 | every state reachable from `new()` satisfies the invariant: a component is 0 exactly when neither of its keys is held, and negative or positive only while the matching key is held |
| ControllerProperties.ReleaseOfUnheldKeyIsNoop | src/camera_controller.rs:108-119 | in a reachable state, releasing a movement key that is not held changes nothing |
| ControllerProperties.KeysAgreeAxis | src/camera_controller.rs:110 | in a reachable state, an unheld flag's component already shows its fallback value's sign |
| ControllerProperties.PressIdempotent | src/camera_controller.rs:67-93 | pressing a key twice equals pressing it once |
| ControllerProperties.ReleaseIdempotent | src/camera_controller.rs:94-123 | releasing a key twice equals releasing it once |
| ControllerProperties.LastPressWins | src/camera_controller.rs:84-85 | pressing W then S and S then W hold the same keys but give direction[0] = +1 and -1 |
| ControllerProperties.ForwardAndRightIsDiagonal | src/camera_controller.rs:84-87 | W then D gives the direction (-1/SQRT2, 0, -1/SQRT2) |
| ControllerProperties.ReleaseRestoresOpposite | src/camera_controller.rs:114-115 | W, S, release S gives direction[0] = -1 |
| ControllerProperties.PressThenReleaseIsNeutral | src/camera_controller.rs:84-114 | W then release W gives a zero direction and no held key |
| ControllerProperties.RunAppend | src/camera_controller.rs:41-126 | feeding two event sequences one after the other equals feeding their concatenation |
| ControllerProperties.LookEighthTurn | src/camera_controller.rs:62-64 | 360 units of horizontal motion from the start give yaw exactly -PI/4 and leave pitch at 0 |
| ControllerProperties.VerticalStepIgnoresVelocity | src/camera_controller.rs:58 | the vertical step does not depend on velocity |
| ControllerProperties.SprintDoublesHorizontalStep | src/camera_controller.rs:53-59 | velocity 2 moves exactly twice as far horizontally as velocity 1 |
| ControllerProperties.TicksAdd | src/camera_controller.rs:51-59 | two updates of dt1 and dt2 move as far as one update of dt1 + dt2 |
| ControllerProperties.ForwardTickQuarterTurn | src/camera_controller.rs:51-59 | W then an update of one second at yaw PI/2 (sine 1, cosine 0) moves the camera from the origin to (-3, 0, 0) |
| ControllerProperties.ForwardTick | src/camera_controller.rs:51-59 | W then an update of one second at yaw 0 moves the camera from the origin to (0, 0, -3) |
| Camera.Camera.constructor | src/camera_controller.rs:11 | a camera with the given position and orientation |
| Camera.Camera.SetYawPitch | src/camera_controller.rs:65 | records the orientation and leaves the position alone |
| CameraController.CameraController.constructor | src/camera_controller.rs:31-39 | the fields equal the initial state, which satisfies the invariant and holds no key |
| CameraController.CameraController.Event | src/camera_controller.rs:41-126 | the new fields are Step of the old ones, the invariant is kept, the camera position moves as Moved on Update and is otherwise unchanged, and the camera receives exactly the new yaw and pitch on mouse motion and nothing otherwise |
| CameraController.CameraController.OnUpdate | src/camera_controller.rs:51-59 | the camera position becomes Moved of the old position; orientation untouched |
| CameraController.CameraController.OnMouseMove | src/camera_controller.rs:61-66 | the fields become Look of the old ones and the camera gets the new yaw and pitch |
| CameraController.CameraController.OnKeyPress | src/camera_controller.rs:67-93 | the fields become Press of the old ones |
| CameraController.CameraController.OnKeyRelease | src/camera_controller.rs:94-123 | the fields become Release of the old ones |
| CameraController.CameraController.PressSet | src/camera_controller.rs:72-81 | the direction becomes the normalised triple and the flag is inserted; nothing else changes |
| CameraController.CameraController.ReleaseSet | src/camera_controller.rs:99-107 | the direction becomes the normalised triple; nothing else changes |
| CameraController.CameraController.ReleaseKey | src/camera_controller.rs:108-111 | the flag is removed and the result is the fallback value if the opposite flag is held, else 0 |
| CameraController.ForwardThenTick | src/camera_controller.rs:51-89 | a caller that presses W and then sends a one-second update at yaw 0 finds the camera at (0, 0, -3) |

## Left out

- `src/main.rs`: window, asset loading, GPU setup and the render loop are I/O and foreign
  libraries; that file drives a different camera type and does not use this controller.
- `camera::Camera` is not part of this model beyond its `position` and `set_yaw_pitch`.
- f32 arithmetic is exact real arithmetic: rounding, NaN and infinities are not modelled, and
  `f32::min`/`f32::max` are modelled for non-NaN operands only.
- Because division is exact, the model's diagonal component is 1/SQRT2 and its squared
  horizontal length 2/SQRT2^2 lies slightly above 1 (`HorizontalLength`); the program's f32
  quotient `x / SQRT2` rounds to 0.70710677, below 1/sqrt(2), so its diagonal comes out slightly
  below 1 instead.
- The casts `args.dt as f32`, `args.dx as f32` and `args.dy as f32` from f64 are taken as exact.
- `f32::sin` and `f32::cos` are caller-supplied functions; only `Moved`'s length clause assumes
  they satisfy s^2 + c^2 = 1.
- The piston event and keyboard types are replaced by the `GameEvent` and `Key` datatypes; every
  event kind other than the four handled is `OtherEvent`, every other key `Unrecognised`.
- Negative or NaN `dt` is accepted unchecked; nothing beyond the linear update is stated about it.
