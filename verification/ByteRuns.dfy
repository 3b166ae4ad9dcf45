/**
 Which byte instructions undo each other, run as instructions on any register: rotations, shifts of
 nibbles, bit operations under a later test, increments and decrements.
 */
module ByteRuns {
  import opened MemoryBus
  import opened Core
  import opened Instructions
  import opened Lanes
  import opened Lockstep
  import opened Stack
  import opened Behaviour
  import opened ByteLaws
  import opened ManualSteps
  import Decimal

  lemma NativeRuns<D>(p: Device<D>, m: Scalar<D>, dst: R8, fn: Fn8, src: R8)
    ensures Exec(ScalarBackend(), p, m, Native8(dst, fn, src)) == m.(cpu := AfterNative(m.cpu, dst, fn, src))
  {
    hide Apply, Set8, Get8;
  }

  // ----- The bodies of the byte instructions -----

  /** The registers after a prefixed instruction that writes its register back. */
  function Rewritten(c: Cpu<bv8, Word, bool>, code: Code, fn: Fn8): Cpu<bv8, Word, bool> {
    var (r, f) := Apply(fn, Get8(c, Reg(code)), Bits(c));
    Set8(Flagged(c.(x := r), f), Reg(code), r)
  }

  lemma RewriteRuns<D>(p: Device<D>, m: Scalar<D>, code: Code, fn: Fn8)
    requires code != 6
    ensures Run(ScalarBackend(), p, m, ReadR8(code, Then(Native8(Rx, fn, Rx), WriteR8(code, End(8)))))
         == (m.(cpu := Rewritten(m.cpu, code, fn)), 8)
  {
    hide Run, Exec, ScalarBackend, Set8, Get8, Slack, Priced, Reg, Apply;
    var v := Get8(m.cpu, Reg(code));
    var m1 := m.(cpu := m.cpu.(x := v));
    var m2 := m1.(cpu := AfterNative(m1.cpu, Rx, fn, Rx));
    CopyByteRuns(p, m, Rx, Reg(code));
    SetScratch(m.cpu, v);
    NativeRuns(p, m1, Rx, fn, Rx);
    SetScratch(m1.cpu, Apply(fn, v, Bits(m1.cpu)).0);
    CopyByteRuns(p, m2, Reg(code), Rx);
    GetScratch(m2.cpu);
    RunDo(p, m, Copy8(Rx, Reg(code)), Do(Native8(Rx, fn, Rx), Do(Copy8(Reg(code), Rx), Done(8))));
    RunDo(p, m1, Native8(Rx, fn, Rx), Do(Copy8(Reg(code), Rx), Done(8)));
    RunDo(p, m2, Copy8(Reg(code), Rx), Done(8));
    RunDone(p, m.(cpu := Rewritten(m.cpu, code, fn)), 8);
  }

  lemma GetScratch<V, W, M>(c: Cpu<V, W, M>)
    ensures Get8(c, Rx) == c.x
  {
  }

  lemma SetReads<V, W, M>(c: Cpu<V, W, M>, r: R8, v: V, v': V)
    ensures Get8(Set8(c, r, v), r) == v
    ensures Set8(Set8(c, r, v), r, v') == Set8(c, r, v')
  {
  }

  lemma SetSame<V, W, M>(c: Cpu<V, W, M>, r: R8)
    ensures Set8(c, r, Get8(c, r)) == c
  {
  }

  lemma FlagsApart(c: Cpu<bv8, Word, bool>, r: R8, v: bv8, f: FlagBits)
    ensures Flagged(Set8(c, r, v), f) == Set8(Flagged(c, f), r, v)
    ensures Get8(Flagged(c, f), r) == Get8(c, r)
  {
    hide Get8, Set8;
    FlagsHideNothing(c, r, f);
    if r.Ra? || r.Rb? || r.Rc? || r.Rd? || r.Re? { FlagsLow(c, r, v, f); } else { FlagsHigh(c, r, v, f); }
  }

  lemma FlagsHideNothing(c: Cpu<bv8, Word, bool>, r: R8, f: FlagBits)
    ensures Get8(Flagged(c, f), r) == Get8(c, r)
  {
  }

  lemma FlagsLow(c: Cpu<bv8, Word, bool>, r: R8, v: bv8, f: FlagBits)
    requires r.Ra? || r.Rb? || r.Rc? || r.Rd? || r.Re?
    ensures Flagged(Set8(c, r, v), f) == Set8(Flagged(c, f), r, v)
  {
  }

  lemma FlagsHigh(c: Cpu<bv8, Word, bool>, r: R8, v: bv8, f: FlagBits)
    requires r.Rh? || r.Rl? || r.Rx? || r.Ry?
    ensures Flagged(Set8(c, r, v), f) == Set8(Flagged(c, f), r, v)
  {
  }

  lemma FlagsAre(c: Cpu<bv8, Word, bool>, f: FlagBits, g: FlagBits)
    ensures Bits(Flagged(c, f)) == f && Flagged(Flagged(c, f), g) == Flagged(c, g)
  {
  }

  lemma ScratchApart<V, W, M>(c: Cpu<V, W, M>, r: R8, v: V, x: V)
    requires r != Rx
    ensures Set8(c, r, v).(x := x) == Set8(c.(x := x), r, v) && Get8(c.(x := x), r) == Get8(c, r)
  {
    hide Get8, Set8;
    ScratchHidesNothing(c, r, x);
    if r.Ra? || r.Rb? || r.Rc? || r.Rd? { ScratchLow(c, r, v, x); } else { ScratchHigh(c, r, v, x); }
  }

  lemma ScratchHidesNothing<V, W, M>(c: Cpu<V, W, M>, r: R8, x: V)
    requires r != Rx
    ensures Get8(c.(x := x), r) == Get8(c, r)
  {
  }

  lemma ScratchLow<V, W, M>(c: Cpu<V, W, M>, r: R8, v: V, x: V)
    requires r.Ra? || r.Rb? || r.Rc? || r.Rd?
    ensures Set8(c, r, v).(x := x) == Set8(c.(x := x), r, v)
  {
  }

  lemma ScratchHigh<V, W, M>(c: Cpu<V, W, M>, r: R8, v: V, x: V)
    requires r.Re? || r.Rh? || r.Rl? || r.Ry?
    ensures Set8(c, r, v).(x := x) == Set8(c.(x := x), r, v)
  {
  }

  lemma FlagsKeepScratch(c: Cpu<bv8, Word, bool>, f: FlagBits, x: bv8)
    ensures Flagged(c, f).(x := x) == Flagged(c.(x := x), f)
  {
  }

  lemma NotScratch(code: Code)
    ensures Reg(code) != Rx
  {
  }

  /** What a rewritten register and the flags are, */
  lemma RewrittenReads(c: Cpu<bv8, Word, bool>, code: Code, fn: Fn8)
    ensures var (r, f) := Apply(fn, Get8(c, Reg(code)), Bits(c));
      Get8(Rewritten(c, code, fn), Reg(code)) == r && Bits(Rewritten(c, code, fn)) == f
  {
    hide Apply, Get8, Set8, Reg, Flagged, Bits;
    var (r, f) := Apply(fn, Get8(c, Reg(code)), Bits(c));
    SetReads(Flagged(c.(x := r), f), Reg(code), r, r);
    FlagsApart(c.(x := r), Reg(code), r, f);
    FlagsAre(Set8(c.(x := r), Reg(code), r), f, f);
  }

  /** and that a second rewrite which restores the register leaves only scratch byte and flags. */
  lemma RewrittenBack(c: Cpu<bv8, Word, bool>, code: Code, fn: Fn8, back: Fn8, g: FlagBits)
    requires var (r, f) := Apply(fn, Get8(c, Reg(code)), Bits(c)); Apply(back, r, f) == (Get8(c, Reg(code)), g)
    ensures Rewritten(Rewritten(c, code, fn), code, back) == Flagged(c.(x := Get8(c, Reg(code))), g)
  {
    hide Apply, Get8, Set8, Reg, Flagged, Bits;
    var q, v := Reg(code), Get8(c, Reg(code));
    var (r, f) := Apply(fn, v, Bits(c));
    RewrittenReads(c, code, fn);
    NotScratch(code);
    var c0 := Flagged(c.(x := r), f);
    ScratchApart(c0, q, r, v);
    FlagsKeepScratch(c.(x := r), f, v);
    var c1 := Flagged(c.(x := v), f);
    FlagsApart(c1, q, r, g);
    FlagsAre(c.(x := v), f, g);
    SetReads(Flagged(c.(x := v), g), q, r, v);
    ScratchApart(c, q, r, v);
    FlagsApart(c.(x := v), q, v, g);
    SetSame(Flagged(c.(x := v), g), q);
  }

  lemma RotateBody(variant: nat, code: Code)
    requires variant < 8 && code != 6
    ensures CbBody(8 * variant + code)
         == ReadR8(code, Then(Native8(Rx, Rotate(variant), Rx), WriteR8(code, End(8))))
  {
    hide ReadR8, WriteR8, Then, End, Slack, Priced;
    SubCode(0, variant, code);
  }

  // ----- Rotations -----

  /** The rotation that undoes a rotation: RLC and RRC, RL and RR, and SWAP itself. */
  function Inverse(variant: nat): nat
    requires variant < 4 || variant == 6
  {
    if variant == 0 then 1 else if variant == 1 then 0 else if variant == 2 then 3 else if variant == 3 then 2 else 6
  }

  /** The carry a rotation and its inverse leave: through the carry, the one before both. */
  function CarryAfter(variant: nat, v: bv8, carry: bool): bool {
    if variant == 0 then v & 0x80 != 0 else if variant == 1 then v & 0x01 != 0
    else if variant == 6 then false else carry
  }

  lemma RotatedBack(variant: nat, v: bv8, f: FlagBits)
    requires variant < 4 || variant == 6
    ensures var (r, g) := Apply(Rotate(variant), v, f);
      Apply(Rotate(Inverse(variant)), r, g) == (v, FlagBits(v == 0, false, false, CarryAfter(variant, v, f.c)))
  {
    hide Rotated;
    CircularBack(v, f.c);
    CarryRotationsUndo(v, f.c);
    SwapUndoes(v, f.c);
  }

  lemma CircularBack(v: bv8, c: bool)
    ensures forall d: bool :: Rotated(1, Rotated(0, v, c).0, d) == (v, v & 0x80 != 0)
    ensures forall d: bool :: Rotated(0, Rotated(1, v, c).0, d) == (v, v & 0x01 != 0)
    ensures forall d: bool :: Rotated(6, Rotated(6, v, c).0, d) == (v, false)
  {
    RotationsUndo(v, c);
  }

  /** A rotation of any register followed by its inverse gives the register back, at eight cycles each;
      what is left behind is the scratch byte and the flags, where Z tells a zero byte, and the carry of
      a rotation through the carry is the carry from before. */
  lemma RotateAndBack<D>(p: Device<D>, m: Scalar<D>, code: Code, variant: nat)
    requires code != 6 && (variant < 4 || variant == 6)
    ensures var v := Get8(m.cpu, Reg(code));
      var m1 := Run(ScalarBackend(), p, m, CbBody(8 * variant + code)).0;
      Run(ScalarBackend(), p, m1, CbBody(8 * Inverse(variant) + code))
      == (m.(cpu := Flagged(m.cpu.(x := v), FlagBits(v == 0, false, false, CarryAfter(variant, v, m.cpu.fc)))), 8)
  {
    hide Run, ScalarBackend, Get8, Set8, Reg, Apply, CarryAfter, CbBody, Flagged, ReadR8, WriteR8, Rewritten, Then, End;
    var v := Get8(m.cpu, Reg(code));
    var m1 := m.(cpu := Rewritten(m.cpu, code, Rotate(variant)));
    RotateBody(variant, code);
    RotateBody(Inverse(variant), code);
    RewriteRuns(p, m, code, Rotate(variant));
    RewriteRuns(p, m1, code, Rotate(Inverse(variant)));
    RotatedBack(variant, v, Bits(m.cpu));
    RewrittenBack(m.cpu, code, Rotate(variant), Rotate(Inverse(variant)),
                  FlagBits(v == 0, false, false, CarryAfter(variant, v, m.cpu.fc)));
  }

  /** `r` is `v` shifted, the bit that fell out being the carry: left, right keeping the sign, or right. */
  predicate ShiftedOut(variant: nat, v: bv8, r: bv8, carry: bool) {
    if variant == 4 then v == (r >> 1) | ByBool(carry, 0x80) && r & 0x01 == 0
    else v == (r << 1) | ByBool(carry, 0x01) && r & 0x80 == (if variant == 5 then v & 0x80 else 0)
  }

  lemma ShiftApplies(variant: nat, v: bv8, f: FlagBits)
    requires variant == 4 || variant == 5 || variant == 7
    ensures var (r, g) := Apply(Rotate(variant), v, f);
      ShiftedOut(variant, v, r, g.c) && g.z == (r == 0) && !g.n && !g.h
  {
    hide Rotated;
    ShiftsKeepTheRest(v, f.c);
  }

  /** SLA, SRA and SRL of any register lose exactly the bit they put in the carry: shifting the carry
      back in gives the byte that was there, and the arithmetic shift keeps its sign. */
  lemma ShiftLosesCarry<D>(p: Device<D>, m: Scalar<D>, code: Code, variant: nat)
    requires code != 6 && (variant == 4 || variant == 5 || variant == 7)
    ensures var (m1, cost) := Run(ScalarBackend(), p, m, CbBody(8 * variant + code));
      var r := Get8(m1.cpu, Reg(code));
      && cost == 8 && m1.cpu.fz == (r == 0) && !m1.cpu.fn && !m1.cpu.fh
      && ShiftedOut(variant, Get8(m.cpu, Reg(code)), r, m1.cpu.fc)
  {
    hide Run, ScalarBackend, Get8, Reg, CbBody, ReadR8, WriteR8, Rewritten, Then, End, Bits, Apply, ShiftedOut;
    RotateBody(variant, code);
    RewriteRuns(p, m, code, Rotate(variant));
    RewrittenReads(m.cpu, code, Rotate(variant));
    BitsAre(Rewritten(m.cpu, code, Rotate(variant)));
    ShiftApplies(variant, Get8(m.cpu, Reg(code)), Bits(m.cpu));
  }

  lemma BitsAre(c: Cpu<bv8, Word, bool>)
    ensures Bits(c).z == c.fz && Bits(c).n == c.fn && Bits(c).h == c.fh && Bits(c).c == c.fc
  {
  }

  lemma AccumulatorBody(variant: nat)
    requires variant < 6
    ensures Body(0x07 + 8 * variant) == Do(Native8(Ra, Accumulator(variant), Ra), Done(4))
  {
    hide Low0, Low1, Low2, Low3, Low6, Step8, High, Slack, Priced, Accumulator;
    SubCode(0, variant, 7);
  }

  lemma AccumulatorRuns<D>(p: Device<D>, m: Scalar<D>, fn: Fn8)
    ensures Run(ScalarBackend(), p, m, Do(Native8(Ra, fn, Ra), Done(4)))
         == (m.(cpu := AfterNative(m.cpu, Ra, fn, Ra)), 4)
  {
    hide Run, Exec, ScalarBackend, AfterNative;
    NativeRuns(p, m, Ra, fn, Ra);
    RunDo(p, m, Native8(Ra, fn, Ra), Done(4));
    RunDone(p, m.(cpu := AfterNative(m.cpu, Ra, fn, Ra)), 4);
  }

  lemma SameRotation(c: Cpu<bv8, Word, bool>, variant: nat)
    requires variant < 4
    ensures AfterNative(c, Ra, Accumulator(variant), Ra) == Rewritten(c, 7, Rotate(variant)).(x := c.x, fz := false)
  {
    hide Rotated, Apply;
    AccumulatorApplies(variant, c.a, Bits(c));
  }

  lemma AccumulatorApplies(variant: nat, v: bv8, f: FlagBits)
    requires variant < 4
    ensures var (r, g) := Apply(Rotate(variant), v, f);
      Apply(Accumulator(variant), v, f) == (r, g.(z := false)) && !g.n && !g.h
  {
    hide Rotated;
    AccumulatorRotations(v, f);
  }

  /** RLCA, RRCA, RLA and RRA are RLC, RRC, RL and RR of the accumulator in half the time, except that
      they always clear Z. */
  lemma AccumulatorShortcut<D>(p: Device<D>, m: Scalar<D>, variant: nat)
    requires variant < 4
    ensures var ((short, cost), (long, cost')) :=
        (Run(ScalarBackend(), p, m, Body(0x07 + 8 * variant)), Run(ScalarBackend(), p, m, CbBody(8 * variant + 7)));
      && short == long.(cpu := long.cpu.(x := m.cpu.x, fz := false)) && cost == 4 && cost' == 8
  {
    hide Run, ScalarBackend, Body, CbBody, ReadR8, WriteR8, Then, End, AfterNative, Rewritten, Accumulator;
    AccumulatorBody(variant);
    RotateBody(variant, 7);
    AccumulatorRuns(p, m, Accumulator(variant));
    RewriteRuns(p, m, 7, Rotate(variant));
    SameRotation(m.cpu, variant);
  }

  // ----- Bit operations -----

  lemma BitBodies(bit: nat, code: Code)
    requires bit < 8 && code != 6
    ensures CbBody(0x40 + 8 * bit + code) == ReadR8(code, Then(Native8(Rx, TestBit(bit), Rx), End(8)))
    ensures CbBody(0x80 + 8 * bit + code)
         == ReadR8(code, Then(Native8(Rx, ResetBit(bit), Rx), WriteR8(code, End(8))))
    ensures CbBody(0xC0 + 8 * bit + code)
         == ReadR8(code, Then(Native8(Rx, SetBit(bit), Rx), WriteR8(code, End(8))))
  {
    hide ReadR8, WriteR8, Then, End, Slack, Priced;
    SubCode(1, bit, code);
    SubCode(2, bit, code);
    SubCode(3, bit, code);
  }

  lemma TestRuns<D>(p: Device<D>, m: Scalar<D>, code: Code, bit: nat)
    requires code != 6
    ensures var v := Get8(m.cpu, Reg(code));
      Run(ScalarBackend(), p, m, ReadR8(code, Then(Native8(Rx, TestBit(bit), Rx), End(8))))
      == (m.(cpu := Flagged(m.cpu.(x := v), FlagBits(BitClear(v, bit), false, true, m.cpu.fc))), 8)
  {
    hide Run, Exec, ScalarBackend, Set8, Get8, Slack, Priced, Reg, BitClear;
    var v := Get8(m.cpu, Reg(code));
    var m1 := m.(cpu := m.cpu.(x := v));
    CopyByteRuns(p, m, Rx, Reg(code));
    SetScratch(m.cpu, v);
    NativeRuns(p, m1, Rx, TestBit(bit), Rx);
    SetScratch(m1.cpu, v);
    RunDo(p, m, Copy8(Rx, Reg(code)), Do(Native8(Rx, TestBit(bit), Rx), Done(8)));
    RunDo(p, m1, Native8(Rx, TestBit(bit), Rx), Done(8));
    RunDone(p, m1.(cpu := AfterNative(m1.cpu, Rx, TestBit(bit), Rx)), 8);
  }

  lemma OtherBit(v: bv8, bit: nat, other: nat)
    requires bit < 8 && other < 8 && bit != other
    ensures BitClear(WithBit(v, bit), other) == BitClear(v, other)
    ensures BitClear(WithoutBit(v, bit), other) == BitClear(v, other)
  {
  }

  /** A bit after a set or a reset of the same or another. */
  lemma ChangedBit(v: bv8, bit: nat, other: nat)
    requires bit < 8 && other < 8
    ensures BitClear(WithBit(v, bit), other) == (bit != other && BitClear(v, other))
    ensures BitClear(WithoutBit(v, bit), other) == (bit == other || BitClear(v, other))
  {
    hide BitClear, WithBit, WithoutBit;
    if bit == other { OwnBit(v, bit); } else { OtherBit(v, bit, other); }
  }

  lemma ChangedByte(v: bv8, bit: nat, on: bool, f: FlagBits)
    ensures Apply(if on then SetBit(bit) else ResetBit(bit), v, f)
         == (if on then WithBit(v, bit) else WithoutBit(v, bit), f)
  {
    hide WithBit, WithoutBit;
  }

  lemma ChangeRuns<D>(p: Device<D>, m: Scalar<D>, code: Code, bit: nat, on: bool)
    requires code != 6 && bit < 8
    ensures var v := Get8(m.cpu, Reg(code));
      var m1 := Run(ScalarBackend(), p, m, CbBody((if on then 0xC0 else 0x80) + 8 * bit + code)).0;
      && Get8(m1.cpu, Reg(code)) == (if on then WithBit(v, bit) else WithoutBit(v, bit))
      && Bits(m1.cpu) == Bits(m.cpu)
  {
    hide Run, ScalarBackend, Get8, Reg, WithBit, WithoutBit, CbBody, ReadR8, WriteR8, Rewritten, Then, End;
    hide Apply, Bits;
    var fn := if on then SetBit(bit) else ResetBit(bit);
    BitBodies(bit, code);
    RewriteRuns(p, m, code, fn);
    RewrittenReads(m.cpu, code, fn);
    ChangedByte(Get8(m.cpu, Reg(code)), bit, on, Bits(m.cpu));
  }

  lemma TestReads<D>(p: Device<D>, m: Scalar<D>, code: Code, bit: nat)
    requires code != 6 && bit < 8
    ensures var (r, cost) := Run(ScalarBackend(), p, m, CbBody(0x40 + 8 * bit + code));
      cost == 8 && r.cpu.fz == BitClear(Get8(m.cpu, Reg(code)), bit) && r.cpu.fc == m.cpu.fc
  {
    hide Run, ScalarBackend, Get8, Reg, BitClear, CbBody, ReadR8, WriteR8, Then, End;
    BitBodies(bit, code);
    TestRuns(p, m, code, bit);
  }

  /** SET and RES on any register show in a later BIT of the same bit and in no other, and neither
      touches the carry. */
  lemma BitShows<D>(p: Device<D>, m: Scalar<D>, code: Code, bit: nat, other: nat, on: bool)
    requires code != 6 && bit < 8 && other < 8
    ensures var v := Get8(m.cpu, Reg(code));
      var m1 := Run(ScalarBackend(), p, m, CbBody((if on then 0xC0 else 0x80) + 8 * bit + code)).0;
      var (m2, cost) := Run(ScalarBackend(), p, m1, CbBody(0x40 + 8 * other + code));
      && cost == 8
      && m2.cpu.fz == (if bit == other then !on else BitClear(v, other)) && m2.cpu.fc == m.cpu.fc
      && Get8(m1.cpu, Reg(code)) == (if on then WithBit(v, bit) else WithoutBit(v, bit))
  {
    hide Run, ScalarBackend, Get8, Reg, BitClear, WithBit, WithoutBit, CbBody;
    ChangeRuns(p, m, code, bit, on);
    TestReads(p, Run(ScalarBackend(), p, m, CbBody((if on then 0xC0 else 0x80) + 8 * bit + code)).0, code, other);
    ChangedBit(Get8(m.cpu, Reg(code)), bit, other);
  }

  // ----- Increment and decrement -----

  lemma StepBodies(code: Code)
    requires code != 6
    ensures Body(0x04 + 8 * code) == Do(Native8(Reg(code), Inc, Reg(code)), Done(4))
    ensures Body(0x05 + 8 * code) == Do(Native8(Reg(code), Dec, Reg(code)), Done(4))
  {
    hide Low0, Low1, Low2, Low3, Low6, High, Slack, Priced, Reg, Accumulator;
    SubCode(0, code, 4);
    SubCode(0, code, 5);
  }

  lemma StepRuns<D>(p: Device<D>, m: Scalar<D>, code: Code, fn: Fn8)
    ensures Run(ScalarBackend(), p, m, Do(Native8(Reg(code), fn, Reg(code)), Done(4)))
         == (m.(cpu := AfterNative(m.cpu, Reg(code), fn, Reg(code))), 4)
  {
    hide Run, Exec, ScalarBackend, AfterNative, Reg;
    NativeRuns(p, m, Reg(code), fn, Reg(code));
    RunDo(p, m, Native8(Reg(code), fn, Reg(code)), Done(4));
    RunDone(p, m.(cpu := AfterNative(m.cpu, Reg(code), fn, Reg(code))), 4);
  }

  lemma RegisterBack(c: Cpu<bv8, Word, bool>, q: R8, r: bv8, f: FlagBits, g: FlagBits)
    ensures var c1 := Flagged(Set8(c, q, r), f);
      && Get8(c1, q) == r && Bits(c1) == f
      && Flagged(Set8(c1, q, Get8(c, q)), g) == Flagged(c, g)
  {
    hide Get8, Set8, Flagged, Bits;
    FlagsApart(Set8(c, q, r), q, r, f);
    SetReads(c, q, r, r);
    SetReads(c, q, r, Get8(c, q));
    FlagsAre(Set8(c, q, r), f, g);
    FlagsApart(Set8(c, q, r), q, Get8(c, q), f);
    SetSame(c, q);
    FlagsAre(c, f, g);
  }

  lemma SteppedBack(v: bv8, f: FlagBits)
    ensures var (r, g) := Apply(Inc, v, f);
      Apply(Dec, r, g) == (v, FlagBits(v == 0, true, v & 0x0F == 0x0F, f.c))
    ensures var (r, g) := Apply(Dec, v, f);
      Apply(Inc, r, g) == (v, FlagBits(v == 0, false, v & 0x0F == 0, f.c))
  {
  }

  /** INC and DEC of a register undo each other in either order; the carry is never touched, and Z and H
      tell of the byte that is back. */
  lemma StepAndBack<D>(p: Device<D>, m: Scalar<D>, code: Code, up: bool)
    requires code != 6
    ensures var v := Get8(m.cpu, Reg(code));
      var m1 := Run(ScalarBackend(), p, m, Body((if up then 0x04 else 0x05) + 8 * code)).0;
      Run(ScalarBackend(), p, m1, Body((if up then 0x05 else 0x04) + 8 * code))
      == (m.(cpu := Flagged(m.cpu,
            FlagBits(v == 0, up, if up then v & 0x0F == 0x0F else v & 0x0F == 0, m.cpu.fc))), 4)
  {
    hide Run, ScalarBackend, Get8, Set8, Reg, Apply, Body, Flagged;
    var v := Get8(m.cpu, Reg(code));
    var there, back := if up then Inc else Dec, if up then Dec else Inc;
    var m1 := m.(cpu := AfterNative(m.cpu, Reg(code), there, Reg(code)));
    var (r, f) := Apply(there, v, Bits(m.cpu));
    StepBodies(code);
    StepRuns(p, m, code, there);
    StepRuns(p, m1, code, back);
    SteppedBack(v, Bits(m.cpu));
    RegisterBack(m.cpu, Reg(code), r, f, Apply(back, r, f).1);
  }

  // ----- Addition and subtraction -----

  lemma SumBodies(code: Code)
    requires code != 6
    ensures Body(0x80 + code) == ReadR8(code, Then(Sum(false, Rx), End(4)))
    ensures Body(0x90 + code) == ReadR8(code, Then(Difference(false, true, Rx), End(4)))
  {
    hide ReadR8, Then, End, Low, High, Slack, Priced;
    SubCode(2, 0, code);
    SubCode(2, 2, code);
  }

  /** The registers after ADD or SUB of the scratch byte. */
  function AfterSum(c: Cpu<bv8, Word, bool>, add: bool): Cpu<bv8, Word, bool> {
    var (r, f) := if add then Add8(c.a, c.x, false) else Sub8(c.a, c.x, false);
    Flagged(c.(a := r), f)
  }

  lemma SumRuns<D>(p: Device<D>, m: Scalar<D>, add: bool)
    ensures Exec(ScalarBackend(), p, m, if add then Sum(false, Rx) else Difference(false, true, Rx))
         == m.(cpu := AfterSum(m.cpu, add))
  {
    hide Add8, Sub8;
  }

  lemma OperandRuns<D>(p: Device<D>, m: Scalar<D>, code: Code, add: bool)
    requires code != 6
    ensures Run(ScalarBackend(), p, m,
                ReadR8(code, Then(if add then Sum(false, Rx) else Difference(false, true, Rx), End(4))))
         == (m.(cpu := AfterSum(m.cpu.(x := Get8(m.cpu, Reg(code))), add)), 4)
  {
    hide Run, Exec, ScalarBackend, Set8, Get8, Slack, Priced, Reg, AfterSum;
    var v := Get8(m.cpu, Reg(code));
    var m1 := m.(cpu := m.cpu.(x := v));
    var op := if add then Sum(false, Rx) else Difference(false, true, Rx);
    CopyByteRuns(p, m, Rx, Reg(code));
    SetScratch(m.cpu, v);
    SumRuns(p, m1, add);
    RunDo(p, m, Copy8(Rx, Reg(code)), Do(op, Done(4)));
    RunDo(p, m1, op, Done(4));
    RunDone(p, m1.(cpu := AfterSum(m1.cpu, add)), 4);
  }

  lemma OtherRegister(c: Cpu<bv8, Word, bool>, code: Code, x: bv8, a: bv8, f: FlagBits)
    requires code < 6
    ensures Get8(Flagged(c.(x := x, a := a), f), Reg(code)) == Get8(c, Reg(code))
  {
  }

  /** ADD A,r and then SUB r gives the accumulator back, and the borrow is the carry of the addition. */
  lemma AddAndBack<D>(p: Device<D>, m: Scalar<D>, code: Code)
    requires code < 6
    ensures var m1 := Run(ScalarBackend(), p, m, Body(0x80 + code)).0;
      var (m2, cost) := Run(ScalarBackend(), p, m1, Body(0x90 + code));
      && cost == 4 && m2.cpu.a == m.cpu.a && m2.cpu.fc == m1.cpu.fc && Get8(m2.cpu, Reg(code)) == Get8(m.cpu, Reg(code))
      && (m1.cpu.fc <==> Decimal.Wide(m.cpu.a) + Decimal.Wide(Get8(m.cpu, Reg(code))) > 0xFF)
  {
    hide Run, ScalarBackend, Get8, Set8, Reg, Body, ReadR8, Then, End, Add8, Sub8, Slack, Priced;
    var v := Get8(m.cpu, Reg(code));
    var (r, f) := Add8(m.cpu.a, v, false);
    var m1 := m.(cpu := AfterSum(m.cpu.(x := v), true));
    SumBodies(code);
    OperandRuns(p, m, code, true);
    OtherRegister(m.cpu, code, v, r, f);
    OperandRuns(p, m1, code, false);
    SubtractUndoesAdd(m.cpu.a, v, false);
    OtherRegister(m.cpu, code, v, m.cpu.a, Sub8(r, v, false).1);
    CarryIs(m.cpu.a, v);
  }

  lemma CarryIs(a: bv8, b: bv8)
    ensures Add8(a, b, false).1.c <==> Decimal.Wide(a) + Decimal.Wide(b) > 0xFF
  {
    Decimal.AddFlagsMeanCarries(a, b, false);
  }

  // ----- Decimal arithmetic -----

  lemma SumReads(c: Cpu<bv8, Word, bool>, add: bool)
    ensures var (r, f) := if add then Add8(c.a, c.x, false) else Sub8(c.a, c.x, false);
      AfterSum(c, add).a == r && Bits(AfterSum(c, add)) == f
  {
    hide Add8, Sub8;
  }

  lemma AdjustedReads(c: Cpu<bv8, Word, bool>)
    ensures var (r, g) := Adjusted(c.a, Bits(c));
      AfterNative(c, Ra, Daa, Ra).a == r && AfterNative(c, Ra, Daa, Ra).fc == g.c
  {
    hide Adjusted;
  }

  /** ADD A,r or SUB r on decimal bytes and then DAA leave the decimal sum or difference in the
      accumulator, the hundred carried or borrowed in the carry flag. */
  lemma DecimalArithmetic<D>(p: Device<D>, m: Scalar<D>, code: Code, add: bool)
    requires code != 6 && Decimal.IsBcd(m.cpu.a) && Decimal.IsBcd(Get8(m.cpu, Reg(code)))
    ensures var m1 := Run(ScalarBackend(), p, m, Body((if add then 0x80 else 0x90) + code)).0;
      var r := Run(ScalarBackend(), p, m1, Body(0x27)).0;
      var a, b := Decimal.Digits(m.cpu.a), Decimal.Digits(Get8(m.cpu, Reg(code)));
      var hundred := if r.cpu.fc then 100 else 0;
      Decimal.IsBcd(r.cpu.a)
      && (if add then Decimal.Digits(r.cpu.a) + hundred == a + b else Decimal.Digits(r.cpu.a) + b == a + hundred)
  {
    hide Run, ScalarBackend, Get8, Reg, Body, ReadR8, Then, End, AfterSum, AfterNative, Bits, Adjusted, Add8, Sub8;
    hide Decimal.IsBcd, Decimal.Digits;
    var v := Get8(m.cpu, Reg(code));
    var m1 := m.(cpu := AfterSum(m.cpu.(x := v), add));
    SumBodies(code);
    OperandRuns(p, m, code, add);
    SumReads(m.cpu.(x := v), add);
    AccumulatorBody(4);
    AccumulatorRuns(p, m1, Daa);
    AdjustedReads(m1.cpu);
    if add {
      Decimal.DaaAdds(m.cpu.a, v, false);
      Decimal.DaaSum(m.cpu.a, v, false);
    } else {
      Decimal.DaaSubtracts(m.cpu.a, v, false);
      Decimal.DaaDifference(m.cpu.a, v, false);
    }
  }

  // ----- Accumulator and flags on the stack -----

  lemma FlagBodies()
    ensures Body(0xF5) == Do(FlagsOut(Rx), Do(Join(Wv, Ra, Rx), Do(Part(Rx, Ry, Wv), Push(End(16)))))
    ensures Body(0xF1) == Pop(Do(Part(Ra, Rx, Wv), Do(FlagsIn(Rx), End(12))))
  {
    hide Low, High0, High2, High3, High4, Push, Pop, Slack, Priced;
  }

  lemma PartRuns<D>(p: Device<D>, m: Scalar<D>, hi: R8, lo: R8, src: R16)
    ensures Exec(ScalarBackend(), p, m, Part(hi, lo, src))
         == m.(cpu := Set8(Set8(m.cpu, hi, HighByte(Get16(m.cpu, src))), lo, LowByte(Get16(m.cpu, src))))
  {
    hide Set8, Get16, HighByte, LowByte;
  }

  lemma FlagsOutRuns<D>(p: Device<D>, m: Scalar<D>)
    ensures Exec(ScalarBackend(), p, m, FlagsOut(Rx)) == m.(cpu := m.cpu.(x := FlagsToByte(Bits(m.cpu))))
  {
    hide FlagsToByte;
  }

  lemma FlagsInRuns<D>(p: Device<D>, m: Scalar<D>)
    ensures Exec(ScalarBackend(), p, m, FlagsIn(Rx)) == m.(cpu := Flagged(m.cpu, FlagsFromByte(m.cpu.x & 0xF0)))
  {
    hide FlagsFromByte;
  }

  /** PUSH AF up to the push itself: A and the flag byte in the scratch bytes. */
  lemma SaveRuns<D>(p: Device<D>, m: Scalar<D>)
    ensures var f := FlagsToByte(Bits(m.cpu));
      Run(ScalarBackend(), p, m, Body(0xF5))
      == Run(ScalarBackend(), p, Pushed(m.(cpu := m.cpu.(x := m.cpu.a, y := f, v := Combined(m.cpu.a, f)))), End(16))
  {
    hide Run, Exec, ScalarBackend, Combined, HighByte, LowByte, Push, Pushed, Slack, Priced, FlagsToByte, Body;
    var f := FlagsToByte(Bits(m.cpu));
    var m1 := m.(cpu := m.cpu.(x := f));
    var m2 := m1.(cpu := m1.cpu.(v := Combined(m.cpu.a, f)));
    FlagBodies();
    FlagsOutRuns(p, m);
    JoinRuns(p, m1, Wv, Ra, Rx);
    PartRuns(p, m2, Rx, Ry, Wv);
    HalvesFromWord(m.cpu.a, f, m.cpu.a as nat, f as nat);
    RunDo(p, m, FlagsOut(Rx), Do(Join(Wv, Ra, Rx), Do(Part(Rx, Ry, Wv), Push(End(16)))));
    RunDo(p, m1, Join(Wv, Ra, Rx), Do(Part(Rx, Ry, Wv), Push(End(16))));
    RunDo(p, m2, Part(Rx, Ry, Wv), Push(End(16)));
    PushRuns(p, m2.(cpu := m2.cpu.(x := m.cpu.a, y := f)), End(16));
  }

  /** POP AF: A and the flags from the two bytes on the stack. */
  lemma RestoreRuns<D>(p: Device<D>, m: Scalar<D>, a: bv8, f: bv8)
    requires Popped(m).cpu.v == Combined(a, f)
    ensures var c := Popped(m).cpu;
      Run(ScalarBackend(), p, m, Body(0xF1))
      == (Popped(m).(cpu := Flagged(c.(a := a, x := f), FlagsFromByte(f & 0xF0))), 12)
  {
    hide Run, Exec, ScalarBackend, Combined, HighByte, LowByte, Pop, Popped, Slack, Priced, FlagsFromByte, Body;
    var m1 := Popped(m);
    var m2 := m1.(cpu := m1.cpu.(a := a, x := f));
    FlagBodies();
    PopRuns(p, m, Do(Part(Ra, Rx, Wv), Do(FlagsIn(Rx), End(12))));
    PartRuns(p, m1, Ra, Rx, Wv);
    HalvesFromWord(a, f, a as nat, f as nat);
    FlagsInRuns(p, m2);
    RunDo(p, m1, Part(Ra, Rx, Wv), Do(FlagsIn(Rx), End(12)));
    RunDo(p, m2, FlagsIn(Rx), End(12));
    RunDone(p, m2.(cpu := Flagged(m2.cpu, FlagsFromByte(f & 0xF0))), 12);
  }

  /** A pop of the same stack bytes brings back what a push of the scratch bytes put there. */
  lemma PushedComesBack<D>(m: Scalar<D>, later: Scalar<D>)
    requires 0xC002 <= m.cpu.sp <= 0xE000
    requires later.cpu.sp == Pushed(m).cpu.sp && later.bus == Pushed(m).bus
    ensures Popped(later).cpu.v == Combined(m.cpu.x, m.cpu.y) && Popped(later).cpu.sp == m.cpu.sp
  {
    hide WriteByte, ReadByte, Combined, WordAdd;
    var sp := m.cpu.sp;
    StackMoves(sp);
    RamHolds(m.bus, sp - 1, sp - 2, m.cpu.x, m.cpu.y);
  }

  /** PUSH AF and then, whatever the registers hold by now, POP AF with the same stack pointer and stack
      bytes brings back the accumulator and all four flags, through a byte whose low nibble is zero. */
  lemma FlagsSurviveStack<D>(p: Device<D>, m: Scalar<D>, later: Scalar<D>)
    requires 0xC002 <= m.cpu.sp <= 0xE000
    requires var (m1, _) := Run(ScalarBackend(), p, m, Body(0xF5)); later.cpu.sp == m1.cpu.sp && later.bus == m1.bus
    ensures var (r, cost) := Run(ScalarBackend(), p, later, Body(0xF1));
      && r.cpu.a == m.cpu.a && Bits(r.cpu) == Bits(m.cpu) && r.cpu.sp == m.cpu.sp && cost == 12
  {
    hide Run, ScalarBackend, Combined, Slack, Priced, FlagsToByte, FlagsFromByte, Body, Pushed, Popped;
    hide Bits, Flagged;
    var a, f := m.cpu.a, FlagsToByte(Bits(m.cpu));
    var saved := m.(cpu := m.cpu.(x := a, y := f, v := Combined(a, f)));
    SaveRuns(p, m);
    RunDone(p, Pushed(saved), 16);
    PushedComesBack(saved, later);
    RestoreRuns(p, later, a, f);
    assert FlagsFromByte(f & 0xF0) == Bits(m.cpu) by { FlagByteRoundTrip(Bits(m.cpu), f); }
    FlagsAre(Popped(later).cpu.(a := a, x := f), Bits(m.cpu), Bits(m.cpu));
    FlagsOnly(Popped(later).cpu.(a := a, x := f), Bits(m.cpu));
  }

  lemma FlagsOnly(c: Cpu<bv8, Word, bool>, f: FlagBits)
    ensures Flagged(c, f).a == c.a && Flagged(c, f).sp == c.sp
  {
  }
}
