/**
 The micro-operations one at a time, seen from outside: what each does to the registers, and that time
 and memory move as the manual says.
 */
module ManualSteps {
  import opened MemoryBus
  import opened Core
  import opened Instructions
  import opened Lanes
  import opened Lockstep
  import opened Decimal
  import opened Manual

  type Registers = Cpu<bv8, Word, bool>

  function Bits(c: Registers): FlagBits {
    FlagBits(c.fz, c.fn, c.fh, c.fc)
  }

  function Flagged(c: Registers, f: FlagBits): Registers {
    c.(fz := f.z, fn := f.n, fh := f.h, fc := f.c)
  }

  /** The registers without the scratch ones. */
  function Seen(c: Registers): Regs {
    Regs(c.a, Bits(c), c.b, c.c, c.d, c.e, c.h, c.l, c.sp, c.pc, c.ime, c.halted, c.pending, c.haltBug)
  }

  function At<D>(c: Registers, o: Outside<D>): Scalar<D> {
    Machine(c, o.bus, o.dev, o.cycles, o.credit)
  }

  function Around<D>(m: Scalar<D>): Outside<D> {
    Outside(m.bus, m.dev, m.cycles, m.credit)
  }

  function Shown<D>(m: Scalar<D>): State<D> {
    State(Seen(m.cpu), Around(m))
  }

  /** What can be seen of a body's run, and its cost. */
  function Effect<D>(p: Device<D>, c: Registers, o: Outside<D>, body: Prog): (State<D>, nat) {
    var (m, cost) := Run(ScalarBackend(), p, At(c, o), body);
    (Shown(m), cost)
  }

  lemma ConsumePasses<D>(p: Device<D>, c: Registers, o: Outside<D>, n: nat)
    ensures Consume(ScalarBackend(), p, At(c, o), n) == At(c, Passed(p, o, n))
  {
    hide ScalarBackend, Turn;
  }

  lemma ChargeSpends<D>(p: Device<D>, c: Registers, o: Outside<D>)
    ensures Charge(ScalarBackend(), p, At(c, o)) == At(c, Spend(p, o))
  {
    hide ScalarBackend, Consume, Passed;
    ConsumePasses(p, c, o, 4);
  }

  // ----- Running on -----

  lemma Ends<D>(p: Device<D>, c: Registers, o: Outside<D>, cost: nat)
    ensures Effect(p, c, o, End(cost)) == (State(Seen(c), o), cost)
  {
    hide ScalarBackend, Seen, Slack, Priced;
  }

  lemma Branches<D>(p: Device<D>, c: Registers, o: Outside<D>, cc: nat, taken: Prog, other: Prog)
    ensures Effect(p, c, o, Either(cc, taken, other))
         == Effect(p, c, o, if Condition(Bits(c), cc) then taken else other)
  {
    hide Seen, Slack, Priced, Condition, Exec;
    assert Flags(ScalarBackend(), c) == Bits(c);
  }

  /** An operation that ends in registers `c'` and surroundings `o'` leaves the rest to run from there. */
  lemma Goes<D>(p: Device<D>, c: Registers, o: Outside<D>, op: Op, next: Prog, c': Registers, o': Outside<D>)
    requires Exec(ScalarBackend(), p, At(c, o), op) == At(c', o')
    ensures Effect(p, c, o, Then(op, next)) == Effect(p, c', o', next)
  {
    hide ScalarBackend, Seen, Slack, Priced, Exec, At;
  }

  function AfterFetch(c: Registers, dst: R8, v: bv8): Registers {
    Set8(c.(pc := if c.haltBug then c.pc else Moved(c.pc, 1), haltBug := false), dst, v)
  }

  lemma FetchGoes<D>(p: Device<D>, c: Registers, o: Outside<D>, dst: R8, next: Prog)
    ensures Effect(p, c, o, Then(FetchImm(dst), next))
         == Effect(p, AfterFetch(c, dst, ReadByte(o.bus, c.pc)), Spend(p, o), next)
  {
    hide ReadByte, Set8, Spend, Charge, Then, Slack, Priced, Effect;
    var c' := AfterFetch(c, dst, ReadByte(o.bus, c.pc));
    BackAgain(c.pc);
    ChargeSpends(p, c', o);
    Goes(p, c, o, FetchImm(dst), next, c', Spend(p, o));
  }

  lemma BackAgain(pc: Word)
    ensures WordAdd(WordAdd(pc, 1), 0xFFFF) == pc && WordAdd(pc, 1) == Moved(pc, 1)
  {
  }

  lemma LoadGoes<D>(p: Device<D>, c: Registers, o: Outside<D>, dst: R8, addr: R16, next: Prog)
    ensures Effect(p, c, o, Then(Load(dst, addr), next))
         == Effect(p, Set8(c, dst, ReadByte(o.bus, Get16(c, addr))), Spend(p, o), next)
  {
    hide ReadByte, Set8, Get16, Spend, Charge, Then, Slack, Priced, Effect;
    var c' := Set8(c, dst, ReadByte(o.bus, Get16(c, addr)));
    ChargeSpends(p, c', o);
    Goes(p, c, o, Load(dst, addr), next, c', Spend(p, o));
  }

  lemma StoreGoes<D>(p: Device<D>, c: Registers, o: Outside<D>, addr: R16, src: R8, next: Prog)
    ensures Effect(p, c, o, Then(Store(addr, src), next))
         == Effect(p, c, Spend(p, o.(bus := WriteByte(o.bus, Get16(c, addr), Get8(c, src)))), next)
  {
    hide WriteByte, Get8, Get16, Spend, Charge, Then, Slack, Priced, Effect;
    var o' := o.(bus := WriteByte(o.bus, Get16(c, addr), Get8(c, src)));
    ChargeSpends(p, c, o');
    Goes(p, c, o, Store(addr, src), next, c, Spend(p, o'));
  }

  lemma BareLoadGoes<D>(p: Device<D>, c: Registers, o: Outside<D>, dst: R8, addr: R16, next: Prog)
    ensures Effect(p, c, o, Then(BareLoad(dst, addr), next))
         == Effect(p, Set8(c, dst, ReadByte(o.bus, Get16(c, addr))), o, next)
  {
    hide ReadByte, Set8, Get16, Then, Slack, Priced, Effect;
    Goes(p, c, o, BareLoad(dst, addr), next, Set8(c, dst, ReadByte(o.bus, Get16(c, addr))), o);
  }

  lemma BareStoreGoes<D>(p: Device<D>, c: Registers, o: Outside<D>, addr: R16, src: R8, next: Prog)
    ensures Effect(p, c, o, Then(BareStore(addr, src), next))
         == Effect(p, c, o.(bus := WriteByte(o.bus, Get16(c, addr), Get8(c, src))), next)
  {
    hide WriteByte, Get8, Get16, Then, Slack, Priced, Effect;
    Goes(p, c, o, BareStore(addr, src), next, c, o.(bus := WriteByte(o.bus, Get16(c, addr), Get8(c, src))));
  }

  // ----- Operations on registers -----

  lemma JoinGoes<D>(p: Device<D>, c: Registers, o: Outside<D>, dst: R16, hi: R8, lo: R8, next: Prog)
    ensures Effect(p, c, o, Then(Join(dst, hi, lo), next))
         == Effect(p, Set16(c, dst, Joined(Get8(c, hi), Get8(c, lo))), o, next)
  {
    hide Get8, Set16, Then, Slack, Priced, Effect;
    Goes(p, c, o, Join(dst, hi, lo), next, Set16(c, dst, Joined(Get8(c, hi), Get8(c, lo))), o);
  }

  lemma PartGoes<D>(p: Device<D>, c: Registers, o: Outside<D>, hi: R8, lo: R8, src: R16, next: Prog)
    ensures Effect(p, c, o, Then(Part(hi, lo, src), next))
         == Effect(p, Set8(Set8(c, hi, Upper(Get16(c, src))), lo, Lower(Get16(c, src))), o, next)
  {
    hide Set8, Get16, Then, Slack, Priced, Effect;
    Goes(p, c, o, Part(hi, lo, src), next, Set8(Set8(c, hi, Upper(Get16(c, src))), lo, Lower(Get16(c, src))), o);
  }

  lemma CopyGoes<D>(p: Device<D>, c: Registers, o: Outside<D>, dst: R8, src: R8, next: Prog)
    ensures Effect(p, c, o, Then(Copy8(dst, src), next)) == Effect(p, Set8(c, dst, Get8(c, src)), o, next)
  {
    hide Set8, Get8, Then, Slack, Priced, Effect;
    Goes(p, c, o, Copy8(dst, src), next, Set8(c, dst, Get8(c, src)), o);
  }

  lemma CopyWordGoes<D>(p: Device<D>, c: Registers, o: Outside<D>, dst: R16, src: R16, next: Prog)
    ensures Effect(p, c, o, Then(Copy16(dst, src), next)) == Effect(p, Set16(c, dst, Get16(c, src)), o, next)
  {
    hide Set16, Get16, Then, Slack, Priced, Effect;
    Goes(p, c, o, Copy16(dst, src), next, Set16(c, dst, Get16(c, src)), o);
  }

  /** `delta` is one of 0, 1, and 0xFFFF for one less. */
  lemma OffsetGoes<D>(p: Device<D>, c: Registers, o: Outside<D>, dst: R16, src: R16, delta: Word, next: Prog)
    ensures Effect(p, c, o, Then(Offset(dst, src, delta), next))
         == Effect(p, Set16(c, dst, WordAdd(Get16(c, src), delta)), o, next)
  {
    hide Set16, Get16, WordAdd, Then, Slack, Priced, Effect;
    Goes(p, c, o, Offset(dst, src, delta), next, Set16(c, dst, WordAdd(Get16(c, src), delta)), o);
  }

  lemma OneLess(w: Word)
    ensures WordAdd(w, 0xFFFF) == Moved(w, -1) && WordAdd(w, 1) == Moved(w, 1) && WordAdd(w, 0) == w
    ensures Moved(Moved(w, -1), -1) == Moved(w, -2) && Moved(Moved(w, 1), 1) == Moved(w, 2)
  {
  }

  lemma PutWordGoes<D>(p: Device<D>, c: Registers, o: Outside<D>, dst: R16, w: Word, next: Prog)
    ensures Effect(p, c, o, Then(PutWord(dst, w), next)) == Effect(p, Set16(c, dst, w), o, next)
  {
    hide Set16, Then, Slack, Priced, Effect;
    Goes(p, c, o, PutWord(dst, w), next, Set16(c, dst, w), o);
  }

  lemma HighPageGoes<D>(p: Device<D>, c: Registers, o: Outside<D>, dst: R16, src: R8, next: Prog)
    ensures Effect(p, c, o, Then(HighPage(dst, src), next))
         == Effect(p, Set16(c, dst, 0xFF00 + Get8(c, src) as nat), o, next)
  {
    hide Set16, Get8, Then, Slack, Priced, Effect;
    Goes(p, c, o, HighPage(dst, src), next, Set16(c, dst, 0xFF00 + Get8(c, src) as nat), o);
  }

  /** The control operations: sleep, and the two interrupt switches. */
  function AfterControl(c: Registers, op: Op): Registers {
    match op
    case Stop => c.(halted := true)
    case SetIme(on) => c.(ime := on)
    case SetPending(on) => c.(pending := on)
    case _ => c
  }

  lemma ControlGoes<D>(p: Device<D>, c: Registers, o: Outside<D>, op: Op, next: Prog)
    requires op.Stop? || op.SetIme? || op.SetPending?
    ensures Effect(p, c, o, Then(op, next)) == Effect(p, AfterControl(c, op), o, next)
  {
    hide Then, Slack, Priced, Effect;
    Goes(p, c, o, op, next, AfterControl(c, op), o);
  }

  function AfterHalt(c: Registers, bus: Bus): Registers {
    if !c.ime && Waiting(bus) & 0x1F != 0 then c.(haltBug := true) else c.(halted := true)
  }

  lemma HaltGoes<D>(p: Device<D>, c: Registers, o: Outside<D>, next: Prog)
    ensures Effect(p, c, o, Then(Halt, next)) == Effect(p, AfterHalt(c, o.bus), o, next)
  {
    hide Then, Slack, Priced, Effect, ScalarBackend, InterruptEnable, InterruptFlags, Waiting;
    WaitingIs(o.bus);
    Goes(p, c, o, Halt, next, AfterHalt(c, o.bus), o);
  }

  lemma WaitingIs(bus: Bus)
    ensures InterruptEnable(ScalarBackend(), bus) & InterruptFlags(ScalarBackend(), bus) == Waiting(bus)
  {
  }

  // ----- Arithmetic -----

  /** A byte function from one register to another. */
  function AfterNative(c: Registers, dst: R8, fn: Fn8, src: R8): Registers {
    var (r, f) := Apply(fn, Get8(c, src), Bits(c));
    Flagged(Set8(c, dst, r), f)
  }

  lemma NativeGoes<D>(p: Device<D>, c: Registers, o: Outside<D>, dst: R8, fn: Fn8, src: R8, next: Prog)
    ensures Effect(p, c, o, Then(Native8(dst, fn, src), next)) == Effect(p, AfterNative(c, dst, fn, src), o, next)
  {
    hide Apply, Set8, Get8, Then, Slack, Priced, Effect;
    Goes(p, c, o, Native8(dst, fn, src), next, AfterNative(c, dst, fn, src), o);
  }

  /** The scratch byte is the operand of the accumulator's arithmetic. */
  lemma SumGoes<D>(p: Device<D>, c: Registers, o: Outside<D>, with: bool, next: Prog)
    ensures var (r, f) := Sum8(c.a, c.x, with && c.fc);
      Effect(p, c, o, Then(Sum(with, Rx), next)) == Effect(p, Flagged(c.(a := r), f), o, next)
  {
    hide Then, Slack, Priced, Effect, Sum8, Add8;
    var (r, f) := Sum8(c.a, c.x, with && c.fc);
    SumsAgree(c.a, c.x, with && c.fc);
    Goes(p, c, o, Sum(with, Rx), next, Flagged(c.(a := r), f), o);
  }

  lemma DifferenceGoes<D>(p: Device<D>, c: Registers, o: Outside<D>, with: bool, keep: bool, next: Prog)
    ensures var (r, f) := Less8(c.a, c.x, with && c.fc);
      Effect(p, c, o, Then(Difference(with, keep, Rx), next))
      == Effect(p, Flagged(c.(a := if keep then r else c.a), f), o, next)
  {
    hide Then, Slack, Priced, Effect, Less8, Sub8, OnCpu, Exec, ScalarBackend;
    var (r, f) := Less8(c.a, c.x, with && c.fc);
    DifferencesAgree(c.a, c.x, with && c.fc);
    var c' := Flagged(c.(a := if keep then r else c.a), f);
    DifferenceIs(c, with, keep);
    RegistersOnly(p, c, o, Difference(with, keep, Rx), c');
    Goes(p, c, o, Difference(with, keep, Rx), next, c', o);
  }

  lemma DifferenceIs(c: Registers, with: bool, keep: bool)
    ensures var (r, f) := Sub8(c.a, c.x, with && c.fc);
      OnCpu(ScalarBackend(), c, Difference(with, keep, Rx)) == Flagged(c.(a := if keep then r else c.a), f)
  {
    hide Sub8;
  }

  lemma LogicIs(c: Registers, fn: LogicFn)
    ensures var r := Bitwise(fn, c.a, c.x);
      OnCpu(ScalarBackend(), c, Logic(fn, Rx)) == Flagged(c.(a := r), FlagBits(r == 0, false, fn == And, false))
  {
    hide Bitwise;
  }

  lemma RegistersOnly<D>(p: Device<D>, c: Registers, o: Outside<D>, op: Op, c': Registers)
    requires op.Logic? || op.Difference?
    requires OnCpu(ScalarBackend(), c, op) == c'
    ensures Exec(ScalarBackend(), p, At(c, o), op) == At(c', o)
  {
    hide OnCpu, ScalarBackend;
  }

  lemma SumsAgree(a: bv8, b: bv8, carry: bool)
    ensures Add8(a, b, carry) == Sum8(a, b, carry)
  {
    hide Add8;
    AddFlagsMeanCarries(a, b, carry);
    NarrowIs(Add8(a, b, carry).0, Wide(a) + Wide(b) + One(carry));
  }

  lemma DifferencesAgree(a: bv8, b: bv8, borrow: bool)
    ensures Sub8(a, b, borrow) == Less8(a, b, borrow)
  {
    hide Sub8;
    SubFlagsMeanBorrows(a, b, borrow);
    NarrowIs(Sub8(a, b, borrow).0, Wide(a) - Wide(b) - One(borrow));
  }

  lemma NarrowIs(r: bv8, s: bv16)
    requires Wide(r) == s & 0xFF
    ensures Narrow(s) == r
  {
  }

  lemma LogicGoes<D>(p: Device<D>, c: Registers, o: Outside<D>, fn: LogicFn, next: Prog)
    ensures var r := Bitwise(fn, c.a, c.x);
      Effect(p, c, o, Then(Logic(fn, Rx), next))
      == Effect(p, Flagged(c.(a := r), FlagBits(r == 0, false, fn == And, false)), o, next)
  {
    hide Then, Slack, Priced, Effect, Bitwise, OnCpu, Exec, ScalarBackend;
    var c' := Flagged(c.(a := Bitwise(fn, c.a, c.x)), FlagBits(Bitwise(fn, c.a, c.x) == 0, false, fn == And, false));
    LogicIs(c, fn);
    RegistersOnly(p, c, o, Logic(fn, Rx), c');
    Goes(p, c, o, Logic(fn, Rx), next, c', o);
  }

  lemma AddWordsGoes<D>(p: Device<D>, c: Registers, o: Outside<D>, next: Prog)
    ensures Effect(p, c, o, Then(AddWords(Wu, Wu, Wv), next))
         == Effect(p, c.(u := Moved(c.u, c.v), fn := false, fh := c.u % 0x1000 + c.v % 0x1000 >= 0x1000,
                          fc := c.u + c.v >= 0x1_0000), o, next)
  {
    hide Then, Slack, Priced, Effect;
    Goes(p, c, o, AddWords(Wu, Wu, Wv), next,
         c.(u := Moved(c.u, c.v), fn := false, fh := c.u % 0x1000 + c.v % 0x1000 >= 0x1000,
            fc := c.u + c.v >= 0x1_0000), o);
  }

  /** A signed byte moves a word without touching the flags, */
  lemma JumpGoes<D>(p: Device<D>, c: Registers, o: Outside<D>, next: Prog)
    ensures Effect(p, c, o, Then(AddSigned(Wpc, Wpc, Rx, false), next))
         == Effect(p, c.(pc := Moved(c.pc, SignedByte(c.x))), o, next)
  {
    hide Then, Slack, Priced, Effect, SignedByte, Signed, SumDiffers, Moved, WordAdd;
    SignedMoves(c.pc, c.x);
    Goes(p, c, o, AddSigned(Wpc, Wpc, Rx, false), next, c.(pc := Moved(c.pc, SignedByte(c.x))), o);
  }

  lemma SignedMoves(w: Word, v: bv8)
    ensures WordAdd(w, Core.Signed(v)) == Moved(w, SignedByte(v))
  {
  }

  /** or sets them by the carries of the unsigned bytes. */
  lemma SignedGoes<D>(p: Device<D>, c: Registers, o: Outside<D>, dst: R16, next: Prog)
    ensures var (w, f) := SpPlus(Seen(c), c.x);
      Effect(p, c, o, Then(AddSigned(dst, Wsp, Rx, true), next)) == Effect(p, Flagged(Set16(c, dst, w), f), o, next)
  {
    hide Then, Slack, Priced, Effect, Set16, Core.Signed, SignedByte, SumDiffers, WordAdd, Moved;
    var (w, f) := SpPlus(Seen(c), c.x);
    SignedMoves(c.sp, c.x);
    XorMasksAreCarries(c.sp, Core.Signed(c.x));
    SignedLow(c.x);
    Goes(p, c, o, AddSigned(dst, Wsp, Rx, true), next, Flagged(Set16(c, dst, w), f), o);
  }

  lemma SignedLow(v: bv8)
    ensures Core.Signed(v) % 0x10 == v as nat % 0x10 && Core.Signed(v) % 0x100 == v as nat
  {
  }

  lemma FlagsOutGoes<D>(p: Device<D>, c: Registers, o: Outside<D>, next: Prog)
    ensures Effect(p, c, o, Then(FlagsOut(Rx), next)) == Effect(p, c.(x := FlagByte(Bits(c))), o, next)
  {
    hide Then, Slack, Priced, Effect, FlagByte, FlagsToByte;
    assert FlagsToByte(Bits(c)) == FlagByte(Bits(c)) by { FlagBytesAgree(Bits(c)); }
    Goes(p, c, o, FlagsOut(Rx), next, c.(x := FlagByte(Bits(c))), o);
  }

  lemma FlagBytesAgree(f: FlagBits)
    ensures FlagsToByte(f) == FlagByte(f)
  {
  }

  lemma FlagsInGoes<D>(p: Device<D>, c: Registers, o: Outside<D>, next: Prog)
    ensures Effect(p, c, o, Then(FlagsIn(Rx), next)) == Effect(p, Flagged(c, ByteFlags(c.x)), o, next)
  {
    hide Then, Slack, Priced, Effect, ByteFlags, FlagsFromByte;
    ByteFlagsAgree(c.x);
    Goes(p, c, o, FlagsIn(Rx), next, Flagged(c, ByteFlags(c.x)), o);
  }

  lemma ByteFlagsAgree(v: bv8)
    ensures FlagsFromByte(v & 0xF0) == ByteFlags(v)
  {
  }
}
