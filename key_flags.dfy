/** The `Keys` bitflags set: one bit of a u8 per movement key that is held. */
module KeyFlags {

  type Keys = bv8

  /** The six declared flags. */
  datatype Flag = MoveForward | MoveBack | StrafeLeft | StrafeRight | FlyUp | FlyDown

  /** The bit each flag is declared with. */
  function Bits(f: Flag): (b: bv8)
    ensures b != 0 && b & (b - 1) == 0
    ensures b & !ALL == 0
  {
    match f
    case MoveForward => 0x01
    case MoveBack => 0x02
    case StrafeLeft => 0x04
    case StrafeRight => 0x08
    case FlyUp => 0x10
    case FlyDown => 0x20
  }

  /** The union of all declared flags. */
  const ALL: Keys := 0x3F

  /** `Keys::empty()`. */
  const EMPTY: Keys := 0

  /** Different flags never share a bit. */
  lemma BitsDisjoint(f: Flag, g: Flag)
    requires f != g
    ensures Bits(f) & Bits(g) == 0
  {
  }

  /** `Keys::empty()` holds no flag and sets no undeclared bit. */
  lemma EmptyHoldsNothing(f: Flag)
    ensures !Contains(EMPTY, f)
    ensures WellFormed(EMPTY)
  {
  }

  /** Only declared bits are set. */
  predicate WellFormed(keys: Keys)
  {
    keys & !ALL == 0
  }

  /** `keys.contains(f)`: every bit of `f` is set; each flag is a single bit, so that is the
      same as any of its bits being set. */
  predicate Contains(keys: Keys, f: Flag): (b: bool)
    ensures b <==> keys & Bits(f) != 0
  {
    keys & Bits(f) == Bits(f)
  }

  /** `keys.insert(f)`: afterwards `f` is held and every other flag is as before. */
  function Insert(keys: Keys, f: Flag): (r: Keys)
    ensures Contains(r, f)
    ensures forall g: Flag :: g != f ==> (Contains(r, g) <==> Contains(keys, g))
    ensures WellFormed(keys) ==> WellFormed(r)
  {
    keys | Bits(f)
  }

  /** `keys.remove(f)`: afterwards `f` is not held and every other flag is as before. */
  function Remove(keys: Keys, f: Flag): (r: Keys)
    ensures !Contains(r, f)
    ensures forall g: Flag :: g != f ==> (Contains(r, g) <==> Contains(keys, g))
    ensures WellFormed(keys) ==> WellFormed(r)
  {
    keys & !Bits(f)
  }
}
