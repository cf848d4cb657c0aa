/** The caller-owned camera the controller drives. Only the two parts the controller touches are
    modelled: the position it moves and the orientation it sets through `set_yaw_pitch`. */
module Camera {
  import opened Numerics

  class Camera {
    var position: Vec3
    /** The orientation most recently passed to SetYawPitch. */
    var yaw: real
    var pitch: real

    constructor (position: Vec3, yaw: real, pitch: real)
      ensures this.position == position && this.yaw == yaw && this.pitch == pitch
    {
      this.position := position;
      this.yaw := yaw;
      this.pitch := pitch;
    }

    /** `set_yaw_pitch`: records the new orientation and leaves the position alone. */
    method SetYawPitch(yaw: real, pitch: real)
      modifies this
      ensures this.yaw == yaw && this.pitch == pitch
      ensures position == old(position)
    {
      this.yaw := yaw;
      this.pitch := pitch;
    }
  }
}
