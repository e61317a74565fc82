/**
 * The bit tests of `ModeT` (utils.go:7-12): `valid` asks whether a mode
 * has any bit of a mask set. Setting or clearing one mask leaves the test
 * on any disjoint mask as it was.
 */
module ModeBits {
  type ModeT = bv32

  /** `ModeT.valid`: the mode has at least one bit of `t` set. */
  predicate Valid(m: ModeT, t: ModeT) {
    m & t != 0
  }

  /** Setting or clearing a nonzero mask `x` disjoint from `r`, `w` and `s` leaves those three as they were. */
  lemma MaskOnly(perm: ModeT, x: ModeT, r: ModeT, w: ModeT, s: ModeT)
    requires x != 0 && x & r == 0 && x & w == 0 && x & s == 0
    ensures Valid(perm | x, x) && !Valid(perm & !x, x)
    ensures Valid(perm | x, r) == Valid(perm, r) == Valid(perm & !x, r)
    ensures Valid(perm | x, w) == Valid(perm, w) == Valid(perm & !x, w)
    ensures Valid(perm | x, s) == Valid(perm, s) == Valid(perm & !x, s)
  {
    SetAndCleared(perm, x);
    OtherBitKept(perm, x, r);
    OtherBitKept(perm, x, w);
    OtherBitKept(perm, x, s);
  }

  /** Setting or clearing `x` does not change whether a disjoint mask `b` is set. */
  lemma OtherBitKept(perm: ModeT, x: ModeT, b: ModeT)
    requires x & b == 0
    ensures Valid(perm | x, b) == Valid(perm, b)
    ensures Valid(perm & !x, b) == Valid(perm, b)
  {
    OtherBitSet(perm, x, b);
    OtherBitClear(perm, x, b);
  }

  /** Setting the bits of `x` leaves a disjoint mask's test alone. */
  lemma OtherBitSet(perm: ModeT, x: ModeT, b: ModeT)
    requires x & b == 0
    ensures Valid(perm | x, b) == Valid(perm, b)
  {
  }

  /** Clearing the bits of `x` leaves a disjoint mask's test alone. */
  lemma OtherBitClear(perm: ModeT, x: ModeT, b: ModeT)
    requires x & b == 0
    ensures Valid(perm & !x, b) == Valid(perm, b)
  {
  }

  /** Setting the bits of a nonzero `x` makes them valid; clearing them makes them invalid. */
  lemma SetAndCleared(m: ModeT, x: ModeT)
    requires x != 0
    ensures Valid(m | x, x) && !Valid(m & !x, x)
  {
  }
}
