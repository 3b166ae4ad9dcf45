/**
 What the flag bits computed by masks mean as arithmetic, and why DAA makes decimal arithmetic of
 binary arithmetic. Sums are taken in sixteen bits, where they cannot wrap.
 */
module Decimal {
  import opened Arithmetic
  import opened Core
  import opened MemoryBus

  function Wide(v: bv8): bv16 {
    v as bv16
  }

  function One(b: bool): bv16 {
    if b then 1 else 0
  }

  /** The carry masks of addition are the carries out of bits 3 and 7. */
  lemma AddFlagsMeanCarries(a: bv8, b: bv8, carry: bool)
    ensures var (r, f) := Add8(a, b, carry);
      && Wide(r) == (Wide(a) + Wide(b) + One(carry)) & 0xFF
      && f.c == (Wide(a) + Wide(b) + One(carry) > 0xFF)
      && f.h == (Wide(a & 0x0F) + Wide(b & 0x0F) + One(carry) > 0x0F)
      && f.z == (r == 0) && !f.n
  {
  }

  /** The borrow masks of subtraction are the borrows into bits 4 and 8. */
  lemma SubFlagsMeanBorrows(a: bv8, b: bv8, borrow: bool)
    ensures var (r, f) := Sub8(a, b, borrow);
      && Wide(r) == (Wide(a) - Wide(b) - One(borrow)) & 0xFF
      && f.c == (Wide(a) < Wide(b) + One(borrow))
      && f.h == (Wide(a & 0x0F) < Wide(b & 0x0F) + One(borrow))
      && f.z == (r == 0) && f.n
  {
  }

  predicate BitOf(a: nat, m: nat)
    requires m > 0
  {
    a / m % 2 == 1
  }

  lemma MaskIsBit(a: Word)
    ensures (a as bv16) & 0x0010 != 0 <==> BitOf(a, 0x10)
    ensures (a as bv16) & 0x0100 != 0 <==> BitOf(a, 0x100)
  {
  }

  lemma XorOfBits(a: bv16, b: bv16, c: bv16)
    ensures (a ^ b ^ c) & 0x0010 != 0 <==> (((a & 0x0010 != 0) != (b & 0x0010 != 0)) != (c & 0x0010 != 0))
    ensures (a ^ b ^ c) & 0x0100 != 0 <==> (((a & 0x0100 != 0) != (b & 0x0100 != 0)) != (c & 0x0100 != 0))
  {
  }

  /** Wrapping at sixteen bits does not touch the lower bits. */
  lemma BitWraps(x: nat, m: nat)
    requires (m == 0x10 || m == 0x100) && x < 0x2_0000
    ensures BitOf(x % 0x1_0000, m) == BitOf(x, m)
  {
    var low := x % 0x1_0000;
    if x >= 0x1_0000 {
      assert x == 0x1_0000 / m * m + low;
      DivAddsMultiple(0x1_0000 / m, m, low);
    }
  }

  lemma SumQuotient(q: nat, r: nat, p: nat, s: nat, m: nat)
    requires r < m && s < m
    ensures (q * m + r + (p * m + s)) / m == q + p + if r + s >= m then 1 else 0
  {
    DivAddsMultiple(q, m, r + (p * m + s));
    assert q * m + (r + (p * m + s)) == q * m + r + (p * m + s);
    DivAddsMultiple(p, m, r + s);
    assert p * m + (r + s) == r + (p * m + s);
    SmallQuotient(r, s, m);
  }

  lemma SmallQuotient(r: nat, s: nat, m: nat)
    requires r < m && s < m
    ensures (r + s) / m == if r + s >= m then 1 else 0
  {
    if r + s < m { QuotientIs(r + s, 0, m, r + s); } else { QuotientIs(r + s, 1, m, r + s - m); }
  }

  lemma Parity(x: nat, y: nat, c: nat)
    requires c <= 1
    ensures (((x % 2 == 1) != (y % 2 == 1)) != ((x + y + c) % 2 == 1)) <==> c == 1
  {
  }

  /** The bit above a carry is the sum of the terms' bits and the carry. */
  lemma CarryFlipsBit(a: nat, b: nat, m: nat)
    requires m > 0
    ensures ((BitOf(a, m) != BitOf(b, m)) != BitOf(a + b, m)) <==> a % m + b % m >= m
  {
    assert a == a / m * m + a % m && b == b / m * m + b % m;
    SumQuotient(a / m, a % m, b / m, b % m, m);
    Parity(a / m, b / m, if a % m + b % m >= m then 1 else 0);
  }

  lemma SumBit(a: Word, b: Word, m: nat)
    requires m == 0x10 || m == 0x100
    ensures ((BitOf(a, m) != BitOf(b, m)) != BitOf(WordAdd(a, b), m)) <==> a % m + b % m >= m
  {
    hide BitOf;
    BitWraps(a + b, m);
    CarryFlipsBit(a, b, m);
  }

  lemma DifferingBit(a: Word, b: Word)
    ensures SumDiffers(a, b, 0x0010) <==> ((BitOf(a, 0x10) != BitOf(b, 0x10)) != BitOf(WordAdd(a, b), 0x10))
    ensures SumDiffers(a, b, 0x0100) <==> ((BitOf(a, 0x100) != BitOf(b, 0x100)) != BitOf(WordAdd(a, b), 0x100))
  {
    hide BitOf, WordAdd;
    var sum := WordAdd(a, b);
    XorOfBits(a as bv16, b as bv16, sum as bv16);
    MaskIsBit(a);
    MaskIsBit(b);
    MaskIsBit(sum);
  }

  /** The exclusive-or masks are the carries out of bits 3 and 7 of the sum. */
  lemma XorMasksAreCarries(a: Word, b: Word)
    ensures SumDiffers(a, b, 0x0010) <==> a % 0x10 + b % 0x10 > 0xF
    ensures SumDiffers(a, b, 0x0100) <==> a % 0x100 + b % 0x100 > 0xFF
  {
    hide BitOf, WordAdd, SumDiffers;
    DifferingBit(a, b);
    SumBit(a, b, 0x10);
    SumBit(a, b, 0x100);
  }

  /** Adding a signed offset to a word register, on any backend: the sum wraps at sixteen bits, Z and N
      are cleared, and H and C are the carries out of bits 3 and 7, whatever the offset's sign. */
  lemma SignedOffsetFlags<V, W, M, B>(k: Backend<V, W, M, B>, c: Cpu<V, W, M>, dst: R16, src: R16, off: R8)
    ensures var a, b := k.toU16(Get16(c, src)), Signed(k.toU8(Get8(c, off)));
      OnCpu(k, c, AddSigned(dst, src, off, true))
      == WithFlags(k, Set16(c, dst, k.fromU16((a + b) % 0x1_0000)),
                   FlagBits(false, false, a % 0x10 + b % 0x10 > 0xF, a % 0x100 + b % 0x100 > 0xFF))
  {
    hide Signed, SumDiffers, WithFlags, Set16, Get16, Get8;
    XorMasksAreCarries(k.toU16(Get16(c, src)), Signed(k.toU8(Get8(c, off))));
  }

  predicate IsBcd(v: bv8) {
    v & 0x0F <= 9 && v >> 4 <= 9
  }

  /** The number two decimal digits denote. */
  function Digits(v: bv8): nat {
    (v >> 4) as nat * 10 + (v & 0x0F) as nat
  }

  /** One column of decimal addition: the digit and whether it carries. */
  function Column(a: bv8, b: bv8, carry: bool): (bv8, bool) {
    var sum := a + b + ByBool(carry, 1);
    if sum > 9 then (sum - 10, true) else (sum, false)
  }

  function Low(v: bv8): bv8 {
    v & 0x0F
  }

  function High(v: bv8): bv8 {
    v >> 4
  }

  // Nibble arithmetic: sum, carry out, and the corrections by six and one.

  function NibbleSum(a: bv8, b: bv8, carry: bool): bv8 {
    (a + b + ByBool(carry, 1)) & 15
  }

  predicate NibbleOut(a: bv8, b: bv8, carry: bool) {
    a + b + ByBool(carry, 1) > 15
  }

  function PlusSix(v: bv8): bv8 {
    (v + 6) & 15
  }

  function PlusOne(v: bv8): bv8 {
    (v + 1) & 15
  }

  predicate AboveNine(v: bv8) {
    v > 9
  }

  predicate IsNine(v: bv8) {
    v == 9
  }

  lemma AddLow(a: bv8, b: bv8, carry: bool)
    ensures Low(Add8(a, b, carry).0) == NibbleSum(Low(a), Low(b), carry)
    ensures Add8(a, b, carry).1.h == NibbleOut(Low(a), Low(b), carry)
  {
  }

  lemma AddHigh(a: bv8, b: bv8, carry: bool)
    ensures High(Add8(a, b, carry).0) == NibbleSum(High(a), High(b), NibbleOut(Low(a), Low(b), carry))
  {
  }

  lemma CarryMask(a: bv8, b: bv8, carry: bool)
    ensures Add8(a, b, carry).1.c == NibbleOut(High(a), High(b), NibbleOut(Low(a), Low(b), carry))
  {
  }

  lemma AddSixty(v: bv8)
    ensures Low(v + 0x60) == Low(v) && High(v + 0x60) == PlusSix(High(v))
  {
  }

  lemma AddSix(v: bv8)
    ensures Low(v + 0x06) == PlusSix(Low(v))
    ensures High(v + 0x06) == if AboveNine(Low(v)) then PlusOne(High(v)) else High(v)
  {
  }

  lemma LowIs(v: bv8)
    ensures AboveNine(Low(v)) == (v & 0x0F > 0x09)
    ensures v > 0x99 <==> AboveNine(High(v)) || (IsNine(High(v)) && AboveNine(Low(v)))
  {
  }

  /** DAA after an addition, nibble by nibble. */
  lemma AdjustNibbles(s: bv8, f: FlagBits)
    requires !f.n
    ensures var (r, g) := Adjusted(s, f);
      var high := f.c || AboveNine(High(s)) || (IsNine(High(s)) && AboveNine(Low(s)));
      var h := if high then PlusSix(High(s)) else High(s);
      var low := f.h || AboveNine(Low(s));
      && g.c == high
      && Low(r) == (if low then PlusSix(Low(s)) else Low(s))
      && High(r) == (if low && AboveNine(Low(s)) then PlusOne(h) else h)
  {
    hide Low, High, PlusSix, PlusOne, AboveNine, IsNine;
    LowIs(s);
    AddSixty(s);
    var v1 := if f.c || s > 0x99 then s + 0x60 else s;
    LowIs(v1);
    AddSix(v1);
  }

  /** The ones column: its correction is due exactly when it carries. */
  lemma OnesColumn(a: bv8, b: bv8, carry: bool)
    requires a <= 9 && b <= 9
    ensures var s := NibbleSum(a, b, carry);
      var low := NibbleOut(a, b, carry) || AboveNine(s);
      && Column(a, b, carry) == (if low then PlusSix(s) else s, low)
      && Column(a, b, carry).0 <= 9
      && !(NibbleOut(a, b, carry) && AboveNine(s))
  {
  }

  /** The tens column, given the carry of the addition below (`x`) or of its correction (`y`). */
  lemma TensColumn(a: bv8, b: bv8, x: bool, y: bool)
    requires a <= 9 && b <= 9 && !(x && y)
    ensures var s := NibbleSum(a, b, x);
      var high := NibbleOut(a, b, x) || AboveNine(s) || (IsNine(s) && y);
      var h := if high then PlusSix(s) else s;
      && Column(a, b, x || y) == (if y then PlusOne(h) else h, high)
      && Column(a, b, x || y).0 <= 9
  {
  }

  lemma BcdNibbles(v: bv8)
    ensures IsBcd(v) <==> Low(v) <= 9 && High(v) <= 9
  {
  }

  /** DAA after an addition works the two decimal columns: the result is decimal, its digits are the
      column sums, and the carry is the carry out of the tens. */
  lemma DaaAdds(a: bv8, b: bv8, carry: bool)
    requires IsBcd(a) && IsBcd(b)
    ensures var (s, f) := Add8(a, b, carry);
      var (r, g) := Adjusted(s, f);
      var (d0, c0) := Column(Low(a), Low(b), carry);
      var (d1, c1) := Column(High(a), High(b), c0);
      IsBcd(r) && Low(r) == d0 && High(r) == d1 && g.c == c1
  {
    hide Low, High, Add8, Adjusted, Column, ByBool, IsBcd, NibbleSum, NibbleOut, PlusSix, PlusOne, AboveNine, IsNine;
    var (s, f) := Add8(a, b, carry);
    BcdNibbles(a);
    BcdNibbles(b);
    AddLow(a, b, carry);
    AddHigh(a, b, carry);
    CarryMask(a, b, carry);
    AddClearsN(a, b, carry);
    AdjustNibbles(s, f);
    OnesColumn(Low(a), Low(b), carry);
    TensColumn(High(a), High(b), NibbleOut(Low(a), Low(b), carry), AboveNine(Low(s)));
    BcdNibbles(Adjusted(s, f).0);
  }

  lemma AddClearsN(a: bv8, b: bv8, carry: bool)
    ensures !Add8(a, b, carry).1.n
  {
  }

  /** Read as numbers: DAA after an addition gives the decimal sum, its hundred in the carry. */
  lemma DaaSum(a: bv8, b: bv8, carry: bool)
    requires IsBcd(a) && IsBcd(b)
    ensures var (s, f) := Add8(a, b, carry);
      var (r, g) := Adjusted(s, f);
      Digits(r) + (if g.c then 100 else 0) == Digits(a) + Digits(b) + (if carry then 1 else 0)
  {
    hide Low, High, Add8, Adjusted, Column, IsBcd, Digits;
    DaaAdds(a, b, carry);
    var (r, g) := Adjusted(Add8(a, b, carry).0, Add8(a, b, carry).1);
    BcdNibbles(a);
    BcdNibbles(b);
    var c0 := Column(Low(a), Low(b), carry).1;
    ColumnValue(Low(a), Low(b), carry);
    ColumnValue(High(a), High(b), c0);
    DigitsOf(a);
    DigitsOf(b);
    DigitsOf(r);
  }

  lemma DigitsOf(v: bv8)
    ensures Digits(v) == High(v) as nat * 10 + Low(v) as nat
  {
  }

  lemma ColumnValue(a: bv8, b: bv8, carry: bool)
    requires a <= 9 && b <= 9
    ensures var (d, c) := Column(a, b, carry);
      d as nat + (if c then 10 else 0) == a as nat + b as nat + (if carry then 1 else 0)
  {
  }

  /** One column of decimal subtraction: the digit and whether it borrows. */
  function ColumnDown(a: bv8, b: bv8, borrow: bool): (bv8, bool) {
    var diff := a - b - ByBool(borrow, 1);
    if a < b + ByBool(borrow, 1) then (diff + 10, true) else (diff, false)
  }

  function NibbleDiff(a: bv8, b: bv8, borrow: bool): bv8 {
    (a - b - ByBool(borrow, 1)) & 15
  }

  predicate NibbleIn(a: bv8, b: bv8, borrow: bool) {
    a < b + ByBool(borrow, 1)
  }

  function MinusSix(v: bv8): bv8 {
    (v - 6) & 15
  }

  lemma SubLow(a: bv8, b: bv8, borrow: bool)
    ensures Low(Sub8(a, b, borrow).0) == NibbleDiff(Low(a), Low(b), borrow)
    ensures Sub8(a, b, borrow).1.h == NibbleIn(Low(a), Low(b), borrow) && Sub8(a, b, borrow).1.n
  {
  }

  lemma SubHigh(a: bv8, b: bv8, borrow: bool)
    ensures High(Sub8(a, b, borrow).0) == NibbleDiff(High(a), High(b), NibbleIn(Low(a), Low(b), borrow))
  {
  }

  lemma BorrowMask(a: bv8, b: bv8, borrow: bool)
    ensures Sub8(a, b, borrow).1.c == NibbleIn(High(a), High(b), NibbleIn(Low(a), Low(b), borrow))
  {
  }

  /** DAA after a subtraction, nibble by nibble: a low nibble of at least six does not borrow again. */
  lemma AdjustDown(s: bv8, f: FlagBits)
    requires f.n && (f.h ==> Low(s) >= 6)
    ensures var (r, g) := Adjusted(s, f);
      && g.c == f.c
      && Low(r) == (if f.h then MinusSix(Low(s)) else Low(s))
      && High(r) == (if f.c then MinusSix(High(s)) else High(s))
  {
  }

  /** A column's correction is due exactly when it borrows, and then leaves room for six. */
  lemma DownColumn(a: bv8, b: bv8, borrow: bool)
    requires a <= 9 && b <= 9
    ensures var s, out := NibbleDiff(a, b, borrow), NibbleIn(a, b, borrow);
      && ColumnDown(a, b, borrow) == (if out then MinusSix(s) else s, out)
      && ColumnDown(a, b, borrow).0 <= 9 && (out ==> s >= 6)
  {
  }

  /** DAA after a subtraction works the two decimal columns: the result is decimal, its digits are the
      column differences, and the carry is the borrow out of the tens. */
  lemma DaaSubtracts(a: bv8, b: bv8, borrow: bool)
    requires IsBcd(a) && IsBcd(b)
    ensures var (s, f) := Sub8(a, b, borrow);
      var (r, g) := Adjusted(s, f);
      var (d0, c0) := ColumnDown(Low(a), Low(b), borrow);
      var (d1, c1) := ColumnDown(High(a), High(b), c0);
      IsBcd(r) && Low(r) == d0 && High(r) == d1 && g.c == c1
  {
    hide Low, High, Sub8, Adjusted, ColumnDown, IsBcd, NibbleDiff, NibbleIn, MinusSix;
    var (s, f) := Sub8(a, b, borrow);
    BcdNibbles(a);
    BcdNibbles(b);
    SubLow(a, b, borrow);
    SubHigh(a, b, borrow);
    BorrowMask(a, b, borrow);
    DownColumn(Low(a), Low(b), borrow);
    DownColumn(High(a), High(b), NibbleIn(Low(a), Low(b), borrow));
    AdjustDown(s, f);
    BcdNibbles(Adjusted(s, f).0);
  }

  lemma ColumnDownValue(a: bv8, b: bv8, borrow: bool)
    requires a <= 9 && b <= 9
    ensures var (d, c) := ColumnDown(a, b, borrow);
      d as nat + b as nat + (if borrow then 1 else 0) == a as nat + (if c then 10 else 0)
  {
  }

  /** Read as numbers: DAA after a subtraction gives the decimal difference, a hundred borrowed if the
      carry says so. */
  lemma DaaDifference(a: bv8, b: bv8, borrow: bool)
    requires IsBcd(a) && IsBcd(b)
    ensures var (s, f) := Sub8(a, b, borrow);
      var (r, g) := Adjusted(s, f);
      Digits(r) + Digits(b) + (if borrow then 1 else 0) == Digits(a) + (if g.c then 100 else 0)
  {
    hide Low, High, Sub8, Adjusted, ColumnDown, IsBcd, Digits;
    DaaSubtracts(a, b, borrow);
    BcdNibbles(a);
    BcdNibbles(b);
    var c0 := ColumnDown(Low(a), Low(b), borrow).1;
    ColumnDownValue(Low(a), Low(b), borrow);
    ColumnDownValue(High(a), High(b), c0);
    DigitsOf(a);
    DigitsOf(b);
    DigitsOf(Adjusted(Sub8(a, b, borrow).0, Sub8(a, b, borrow).1).0);
  }
}
