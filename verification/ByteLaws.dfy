/**
 Laws of the byte operations: which undo each other, what a bit operation changes and what it leaves,
 and that flags survive a trip through the flag byte.
 */
module ByteLaws {
  import opened Core

  /** The four flag bits survive the flag byte, whose low nibble is zero. */
  lemma FlagByteRoundTrip(f: FlagBits, v: bv8)
    ensures FlagsFromByte(FlagsToByte(f) & 0xF0) == f && FlagsToByte(f) & 0x0F == 0
    ensures FlagsToByte(FlagsFromByte(v)) == v & 0xF0
  {
  }

  /** Rotating left and right undo each other, and the bit that went round is the carry. */
  lemma RotationsUndo(v: bv8, c: bool)
    ensures Rotated(1, Rotated(0, v, c).0, c).0 == v && Rotated(0, Rotated(1, v, c).0, c).0 == v
    ensures Rotated(0, v, c).1 == (Rotated(0, v, c).0 & 0x01 != 0)
    ensures Rotated(1, v, c).1 == (Rotated(1, v, c).0 & 0x80 != 0)
  {
  }

  /** Rotating through the carry left and then right gives back the byte and the carry. */
  lemma CarryRotationsUndo(v: bv8, c: bool)
    ensures var (l, c1) := Rotated(2, v, c); Rotated(3, l, c1) == (v, c)
    ensures var (r, c1) := Rotated(3, v, c); Rotated(2, r, c1) == (v, c)
  {
  }

  /** Shifts lose exactly the bit they put in the carry; the arithmetic one keeps the sign. */
  lemma ShiftsKeepTheRest(v: bv8, c: bool)
    ensures var (l, out) := Rotated(4, v, c); l & 0x01 == 0 && (l >> 1) | ByBool(out, 0x80) == v
    ensures var (r, out) := Rotated(7, v, c); r & 0x80 == 0 && (r << 1) | ByBool(out, 0x01) == v
    ensures var (a, out) := Rotated(5, v, c); a & 0x80 == v & 0x80 && (a << 1) | ByBool(out, 0x01) == v
  {
  }

  lemma SwapUndoes(v: bv8, c: bool)
    ensures Rotated(6, Rotated(6, v, c).0, c) == (v, false)
    ensures Rotated(6, v, c).0 & 0x0F == v >> 4
  {
  }

  /** The accumulator rotations are the general ones, except that they always clear the zero flag. */
  lemma AccumulatorRotations(v: bv8, f: FlagBits)
    ensures var (r, g) := Apply(Rlca, v, f); (r, g.c) == Rotated(0, v, f.c) && !g.z
    ensures var (r, g) := Apply(Rrca, v, f); (r, g.c) == Rotated(1, v, f.c) && !g.z
    ensures var (r, g) := Apply(Rla, v, f); (r, g.c) == Rotated(2, v, f.c) && !g.z
    ensures var (r, g) := Apply(Rra, v, f); (r, g.c) == Rotated(3, v, f.c) && !g.z
  {
  }

  /** Setting and resetting a bit show in its own test. */
  lemma OwnBit(v: bv8, bit: nat)
    requires bit < 8
    ensures !BitClear(WithBit(v, bit), bit) && BitClear(WithoutBit(v, bit), bit)
  {
    hide BitMask;
    MasksApart(bit, bit);
    SetMask(v, BitMask(bit));
  }

  /** The masks of two bits are apart. */
  lemma MasksApart(bit: nat, other: nat)
    requires bit < 8 && other < 8
    ensures BitMask(bit) != 0 && (bit != other ==> BitMask(bit) & BitMask(other) == 0)
  {
  }

  lemma SetMask(v: bv8, a: bv8)
    requires a != 0
    ensures (v | a) & a != 0 && (v & !a) & a == 0
  {
  }

  /** Subtracting what was added gives back the byte, and the borrow is the carry. */
  lemma SubtractUndoesAdd(a: bv8, b: bv8, carry: bool)
    ensures var (s, f) := Add8(a, b, carry);
      var (d, g) := Sub8(s, b, carry);
      d == a && g.c == f.c
  {
  }

  /** The fields of an opcode byte. */
  lemma SubCode(x: nat, y: nat, z: nat)
    requires x < 4 && y < 8 && z < 8
    ensures var sub := 64 * x + 8 * y + z; sub < 0x100 && sub / 64 == x && sub / 8 % 8 == y && sub % 8 == z
  {
  }
}
