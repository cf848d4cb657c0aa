/** Properties of the controller that relate several events or several calls. */
module ControllerProperties {
  import opened Numerics
  import opened KeyFlags
  import opened ControllerSpec

  /* ---------- Keys ---------- */

  /** In a reachable state, releasing a movement key that is not held changes nothing: its
      component already shows the opposite key if that one is held and zero otherwise. */
  lemma ReleaseOfUnheldKeyIsNoop(c: Controller, k: Key)
    requires Invariant(c) && IsMovementKey(k) && !Contains(c.keys, FlagOf(k))
    ensures Release(c, k) == c
  {
    var f := FlagOf(k);
    var r := Release(c, k);
    assert r.keys == c.keys;
    KeysAgreeAxis(c, f);
    assert Sgn(r.direction[AxisOf(f)]) == Sgn(c.direction[AxisOf(f)]);
    NormaliseFixesNormalised(c.direction);
    NormaliseFixesNormalised(r.direction);
    NormaliseDependsOnSigns(c.direction[0], c.direction[1], c.direction[2], r.direction[0], r.direction[2]);
    assert r.direction[1] == c.direction[1];
  }

  /** In a reachable state where flag `f` is not held, its component shows the opposite key if
      that one is held and zero otherwise. */
  lemma KeysAgreeAxis(c: Controller, f: Flag)
    requires Invariant(c) && !Contains(c.keys, f)
    ensures Sgn(c.direction[AxisOf(f)]) == Fallback(c.keys, f)
    ensures AxisOf(f) == 1 ==> c.direction[1] == Fallback(c.keys, f)
  {
  }

  /** Pressing the same key twice is the same as pressing it once. */
  lemma PressIdempotent(c: Controller, k: Key)
    ensures Press(Press(c, k), k) == Press(c, k)
  {
  }

  /** Releasing the same key twice is the same as releasing it once. */
  lemma ReleaseIdempotent(c: Controller, k: Key)
    ensures Release(Release(c, k), k) == Release(c, k)
  {
  }

  /** The direction is not a function of the held keys: holding forward and back gives +1 or -1
      on component 0 according to which was pressed last. */
  lemma LastPressWins()
    ensures Run(New(), [KeyPress(W), KeyPress(S)]).keys == Run(New(), [KeyPress(S), KeyPress(W)]).keys
    ensures Run(New(), [KeyPress(W), KeyPress(S)]).direction[0] == 1.0
    ensures Run(New(), [KeyPress(S), KeyPress(W)]).direction[0] == -1.0
  {
  }

  /** Forward and strafe-right together give a diagonal of exactly -1/SQRT2 on both components. */
  lemma ForwardAndRightIsDiagonal()
    ensures Run(New(), [KeyPress(W), KeyPress(D)]).direction == [-1.0 / SQRT2, 0.0, -1.0 / SQRT2]
  {
  }

  /** Releasing back while forward is still held restores forward's -1, not 0. */
  lemma ReleaseRestoresOpposite()
    ensures Run(New(), [KeyPress(W), KeyPress(S), KeyRelease(S)]).direction[0] == -1.0
  {
  }

  /** Pressing and releasing forward brings the direction back to zero and holds no key. */
  lemma PressThenReleaseIsNeutral()
    ensures Run(New(), [KeyPress(W), KeyRelease(W)]).direction == [0.0, 0.0, 0.0]
    ensures forall f: Flag :: !Contains(Run(New(), [KeyPress(W), KeyRelease(W)]).keys, f)
  {
  }

  /** Feeding two sequences of events one after the other is feeding their concatenation. */
  lemma {:induction false} RunAppend(c: Controller, es: seq<GameEvent>, fs: seq<GameEvent>)
    ensures Run(c, es + fs) == Run(Run(c, es), fs)
    decreases |es|
  {
    if es == [] {
      assert es + fs == fs;
    } else {
      assert (es + fs)[1..] == es[1..] + fs;
      RunAppend(Step(c, es[0]), es[1..], fs);
    }
  }

  /* ---------- Mouse ---------- */

  /** 360 units of horizontal mouse motion from the start turn the yaw by exactly -PI/4, an
      eighth of a turn; the truncated remainder leaves it negative. */
  lemma LookEighthTurn()
    ensures Look(New(), 360.0, 0.0).yaw == -PI / 4.0
    ensures Look(New(), 360.0, 0.0).pitch == 0.0
  {
  }

  /* ---------- Update ---------- */

  /** The vertical step does not depend on the sprint multiplier. */
  lemma VerticalStepIgnoresVelocity(pos: Vec3, c: Controller, dt: real, s: real, co: real, v: real)
    ensures Moved(pos, c.(velocity := v), dt, s, co)[1] == Moved(pos, c, dt, s, co)[1]
  {
  }

  /** Sprinting doubles the horizontal step. */
  lemma SprintDoublesHorizontalStep(pos: Vec3, c: Controller, dt: real, s: real, co: real)
    ensures var walk, run := Moved(pos, c.(velocity := 1.0), dt, s, co), Moved(pos, c.(velocity := 2.0), dt, s, co);
      run[0] - pos[0] == 2.0 * (walk[0] - pos[0]) && run[2] - pos[2] == 2.0 * (walk[2] - pos[2])
  {
  }

  /** Two ticks without an intervening event move as far as one tick of their combined length. */
  lemma TicksAdd(pos: Vec3, c: Controller, dt1: real, dt2: real, s: real, co: real)
    ensures Moved(Moved(pos, c, dt1, s, co), c, dt2, s, co) == Moved(pos, c, dt1 + dt2, s, co)
  {
  }

  /** At yaw PI/2 (sine 1, cosine 0), pressing forward and ticking one second moves the camera
      3 units along -x: the rotation turns forward from -z toward -x. */
  lemma ForwardTickQuarterTurn()
    ensures Moved([0.0, 0.0, 0.0], Run(New(), [KeyPress(W)]), 1.0, 1.0, 0.0) == [-3.0, 0.0, 0.0]
  {
  }

  /** From the start, pressing forward and ticking one second at yaw 0 (sine 0, cosine 1) moves
      the camera 3 units along -z. */
  lemma ForwardTick()
    ensures Moved([0.0, 0.0, 0.0], Run(New(), [KeyPress(W)]), 1.0, 0.0, 1.0) == [0.0, 0.0, -3.0]
  {
  }
}
