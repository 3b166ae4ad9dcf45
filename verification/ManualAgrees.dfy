/**
 All opcodes, column by column, against the manual; and from them whole instructions: opcode fetch,
 prefix, delayed interrupt enable and the time declared.
 */
module ManualAgrees {
  import opened MemoryBus
  import opened Core
  import opened Instructions
  import opened CoreLoop
  import opened Lanes
  import opened Lockstep
  import opened ByteLaws
  import opened Manual
  import opened ManualSteps
  import opened ManualRuns

  // ----- Opcodes 0x00 to 0x3F -----

  lemma StoreStackPointer<D>(p: Device<D>, c: Registers, o: Outside<D>)
    ensures Effect(p, c, o, Low0(0x08)) == Column0(p, State(Seen(c), o), 0x08)
  {
    hide Effect, Then, End, Fetch16, Slack, Priced, FetchWord, WriteByte, Spend, Moved, WordAdd, Upper, Lower;
    var last := Then(Store(Wv, Rx), End(20));
    var rest := Then(Offset(Wv, Wv, 1), last);
    var c1 := FetchWordGoes(p, c, o, Then(Part(Rx, Ry, Wsp), Then(Store(Wv, Ry), rest)));
    var (w, s1) := FetchWord(p, State(Seen(c), o));
    PartGoes(p, c1, s1.o, Rx, Ry, Wsp, Then(Store(Wv, Ry), rest));
    var c2 := c1.(x := Upper(c1.sp), y := Lower(c1.sp));
    StoreGoes(p, c2, s1.o, Wv, Ry, rest);
    var o2 := Spend(p, s1.o.(bus := WriteByte(s1.o.bus, w, Lower(c1.sp))));
    OffsetGoes(p, c2, o2, Wv, Wv, 1, last);
    OneLess(w);
    var c3 := c2.(v := Moved(w, 1));
    StoreGoes(p, c3, o2, Wv, Rx, End(20));
    Ends(p, c3, Spend(p, o2.(bus := WriteByte(o2.bus, Moved(w, 1), Upper(c1.sp)))), 20);
  }

  lemma Column0Agrees<D>(p: Device<D>, c: Registers, o: Outside<D>, op: Opcode)
    requires op < 0x40 && op % 8 == 0
    ensures Effect(p, c, o, Low0(op)) == Column0(p, State(Seen(c), o), op)
  {
    hide Effect, Then, End, Either, Fetch16, Slack, Priced, StoreByte, FetchWord, Jr;
    if op == 0x00 {
      Ends(p, c, o, 4);
    } else if op == 0x08 {
      StoreStackPointer(p, c, o);
    } else if op == 0x10 {
      ControlGoes(p, c, o, Stop, End(4));
      Ends(p, c.(halted := true), o, 4);
    } else {
      JrAgrees(p, c, o, op);
    }
  }

  lemma Column1Agrees<D>(p: Device<D>, c: Registers, o: Outside<D>, op: Opcode)
    requires op < 0x40 && op % 8 == 1
    ensures Effect(p, c, o, Low1(op)) == Column1(p, State(Seen(c), o), op)
  {
    hide Effect, Then, End, Fetch16, GetPair, SetPair, Slack, Priced, FetchWord, WithPair, Pair, Seen;
    if op % 16 == 1 {
      var c1 := FetchWordGoes(p, c, o, SetPair(op / 16, End(12)));
      var o1 := FetchWord(p, State(Seen(c), o)).1.o;
      var c2 := SetPairGoes(p, c1, o1, op / 16, End(12));
      Ends(p, c2, o1, 12);
    } else {
      AddAgrees(p, c, o, op / 16);
    }
  }

  lemma AddAgrees<D>(p: Device<D>, c: Registers, o: Outside<D>, rp: nat)
    ensures Effect(p, c, o,
              GetPair(rp, Then(Join(Wu, Rh, Rl), Then(AddWords(Wu, Wu, Wv), Then(Part(Rh, Rl, Wu), End(8))))))
         == (State(AddToHl(Seen(c), Pair(Seen(c), rp)), o), 8)
  {
    hide Effect, Then, End, GetPair, Slack, Priced, Pair, Joined, Moved, Upper, Lower, Seen;
    var last := Then(Part(Rh, Rl, Wu), End(8));
    var add := Then(AddWords(Wu, Wu, Wv), last);
    var c1 := GetPairGoes(p, c, o, rp, Then(Join(Wu, Rh, Rl), add));
    JoinGoes(p, c1, o, Wu, Rh, Rl, add);
    var c2 := c1.(u := Joined(c1.h, c1.l));
    AddWordsGoes(p, c2, o, last);
    var c3 := c2.(u := Moved(c2.u, c2.v), fn := false, fh := c2.u % 0x1000 + c2.v % 0x1000 >= 0x1000,
                  fc := c2.u + c2.v >= 0x1_0000);
    PartGoes(p, c3, o, Rh, Rl, Wu, End(8));
    var c4 := c3.(h := Upper(c3.u), l := Lower(c3.u));
    Ends(p, c4, o, 8);
    SeenAdd(c1);
  }

  lemma SeenAdd(c: Registers)
    ensures var u := Joined(c.h, c.l);
      var sum := Moved(u, c.v);
      Seen(c.(u := sum, fn := false, fh := u % 0x1000 + c.v % 0x1000 >= 0x1000, fc := u + c.v >= 0x1_0000,
              h := Upper(sum), l := Lower(sum)))
      == AddToHl(Seen(c), c.v)
  {
    hide Joined, Moved, Upper, Lower;
  }

  /** Loads and stores through BC and DE. */
  lemma PointerAgrees<D>(p: Device<D>, c: Registers, o: Outside<D>, op: Opcode)
    requires op in {0x02, 0x12, 0x0A, 0x1A}
    ensures Effect(p, c, o, Low2(op)) == Column2(p, State(Seen(c), o), op)
  {
    hide Effect, Then, End, Slack, Priced, Joined, ReadByte, WriteByte, Spend;
    var hi, lo := if op < 0x10 then Rb else Rd, if op < 0x10 then Rc else Re;
    var addr := if op < 0x10 then Joined(c.b, c.c) else Joined(c.d, c.e);
    var access := if op % 16 == 2 then Store(Wu, Ra) else Load(Ra, Wu);
    JoinGoes(p, c, o, Wu, hi, lo, Then(access, End(8)));
    var c1 := c.(u := addr);
    if op % 16 == 2 {
      StoreGoes(p, c1, o, Wu, Ra, End(8));
      Ends(p, c1, Spend(p, o.(bus := WriteByte(o.bus, addr, c.a))), 8);
    } else {
      LoadGoes(p, c1, o, Ra, Wu, End(8));
      Ends(p, c1.(a := ReadByte(o.bus, addr)), Spend(p, o), 8);
    }
  }

  /** The same through HL, which moves on. */
  lemma ThroughAgrees<D>(p: Device<D>, c: Registers, o: Outside<D>, load: bool, delta: Word)
    requires delta == 1 || delta == 0xFFFF
    ensures var hl := Joined(c.h, c.l);
      var r := WithPair(Seen(c), 2, Moved(hl, if delta == 1 then 1 else -1));
      Effect(p, c, o, Through(load, delta))
      == (if load then State(r.(a := ReadByte(o.bus, hl)), Spend(p, o))
          else State(r, Spend(p, o.(bus := WriteByte(o.bus, hl, c.a)))), 8)
  {
    hide Effect, Then, End, Slack, Priced, Joined, ReadByte, WriteByte, Spend, Moved, WordAdd, Upper, Lower;
    var hl := Joined(c.h, c.l);
    var w := Moved(hl, if delta == 1 then 1 else -1);
    var last := if load then Then(Copy8(Ra, Rx), End(8)) else End(8);
    var part := Then(Part(Rh, Rl, Wv), last);
    var move := Then(Offset(Wv, Wu, delta), part);
    OneLess(hl);
    JoinGoes(p, c, o, Wu, Rh, Rl, Then(if load then Load(Rx, Wu) else Store(Wu, Ra), move));
    var c1 := c.(u := hl);
    var c2 := if load then c1.(x := ReadByte(o.bus, hl)) else c1;
    var o2 := if load then Spend(p, o) else Spend(p, o.(bus := WriteByte(o.bus, hl, c.a)));
    if load { LoadGoes(p, c1, o, Rx, Wu, move); } else { StoreGoes(p, c1, o, Wu, Ra, move); }
    OffsetGoes(p, c2, o2, Wv, Wu, delta, part);
    var c3 := c2.(v := w);
    PartGoes(p, c3, o2, Rh, Rl, Wv, last);
    var c4 := c3.(h := Upper(w), l := Lower(w));
    if load {
      CopyGoes(p, c4, o2, Ra, Rx, End(8));
      Ends(p, c4.(a := c4.x), o2, 8);
    } else {
      Ends(p, c4, o2, 8);
    }
  }

  lemma Column2Agrees<D>(p: Device<D>, c: Registers, o: Outside<D>, op: Opcode)
    requires op < 0x40 && op % 8 == 2
    ensures Effect(p, c, o, Low2(op)) == Column2(p, State(Seen(c), o), op)
  {
    hide Effect, Then, End, Through, Slack, Priced, Joined, ReadByte, WriteByte, Spend, Moved, WithPair;
    if op < 0x20 { PointerAgrees(p, c, o, op); }
    else { ThroughAgrees(p, c, o, op % 16 == 10, if op < 0x30 then 1 else 0xFFFF); }
  }

  lemma Column3Agrees<D>(p: Device<D>, c: Registers, o: Outside<D>, op: Opcode)
    requires op < 0x40 && op % 8 == 3
    ensures Effect(p, c, o, Low3(op)) == Column3(State(Seen(c), o), op)
  {
    hide Effect, Then, End, GetPair, SetPair, Slack, Priced, Pair, WithPair, Moved, WordAdd, Seen;
    var rp, delta := op / 16, if op % 16 == 3 then 1 else 0xFFFF;
    var last := SetPair(rp, End(8));
    var c1 := GetPairGoes(p, c, o, rp, Then(Offset(Wv, Wv, delta), last));
    OffsetGoes(p, c1, o, Wv, Wv, delta, last);
    OneLess(c1.v);
    var c2 := c1.(v := WordAdd(c1.v, delta));
    SeenWord(c1, c2.v);
    var c3 := SetPairGoes(p, c2, o, rp, End(8));
    Ends(p, c3, o, 8);
  }

  // ----- Byte functions -----

  lemma StepsAgree(up: bool, v: bv8, f: FlagBits)
    ensures Apply(if up then Inc else Dec, v, f) == Stepped(up, v, f)
  {
  }

  lemma TurnsAgree(kind: Code, v: bv8, f: FlagBits)
    ensures var (r, c) := Turned(kind, v, f.c); Apply(Rotate(kind), v, f) == (r, FlagBits(r == 0, false, false, c))
  {
    hide Turned, Rotated;
    if kind < 4 { CircularAgree(kind, v, f.c); } else { ShiftsAgree(kind, v, f.c); }
  }

  lemma CircularAgree(kind: Code, v: bv8, c: bool)
    requires kind < 4
    ensures Rotated(kind, v, c) == Turned(kind, v, c)
  {
  }

  lemma ShiftsAgree(kind: Code, v: bv8, c: bool)
    requires kind >= 4
    ensures Rotated(kind, v, c) == Turned(kind, v, c)
  {
  }

  lemma AccumulatorAgrees(r: Regs, kind: Code)
    ensures var (v, f) := Apply(Accumulator(kind), r.a, r.f); AccumulatorOp(r, kind) == r.(a := v, f := f)
  {
    hide Apply, Turned, Corrected;
    if kind < 4 { AccumulatorTurns(kind, r.a, r.f); }
    else if kind == 4 { DecimalStep(r.a, r.f); }
    else { FlagSteps(r.a, r.f); }
  }

  lemma AccumulatorTurns(kind: Code, v: bv8, f: FlagBits)
    requires kind < 4
    ensures var (r, c) := Turned(kind, v, f.c); Apply(Accumulator(kind), v, f) == (r, FlagBits(false, false, false, c))
  {
    hide Rotated, Turned;
    AccumulatorRotations(v, f);
    CircularAgree(kind, v, f.c);
  }

  lemma DecimalStep(v: bv8, f: FlagBits)
    ensures Apply(Daa, v, f) == Corrected(v, f)
  {
    hide Adjusted, Corrected;
    AdjustmentsAgree(v, f);
  }

  lemma FlagSteps(v: bv8, f: FlagBits)
    ensures Apply(Cpl, v, f) == (0xFF - v, f.(n := true, h := true))
    ensures Apply(Scf, v, f) == (v, f.(n := false, h := false, c := true))
    ensures Apply(Ccf, v, f) == (v, f.(n := false, h := false, c := !f.c))
  {
    Complement(v);
  }

  lemma Complement(v: bv8)
    ensures v ^ 0xFF == 0xFF - v
  {
  }

  /** One correction by 0x06, 0x60 or both is what the two steps of the adjustment add up to. */
  lemma AdjustmentsAgree(v: bv8, f: FlagBits)
    ensures Adjusted(v, f) == Corrected(v, f)
  {
  }

  lemma MaskAgrees(bit: Code)
    ensures BitMask(bit) == 1 << bit
  {
  }

  // ----- Increments, immediate loads, the accumulator -----

  lemma StepRegister<D>(p: Device<D>, c: Registers, o: Outside<D>, code: Code, up: bool)
    requires code != 6
    ensures var (v, f) := Stepped(up, Register(Seen(c), code), Bits(c));
      Effect(p, c, o, Step8(code, if up then Inc else Dec))
      == (State(WithRegister(Seen(c), code, v).(f := f), o), 4)
  {
    hide Effect, Then, End, Slack, Priced, Reg, Get8, Set8, Apply, Stepped, Seen, Register, WithRegister, Flagged;
    var fn := if up then Inc else Dec;
    var (v, f) := Apply(fn, Get8(c, Reg(code)), Bits(c));
    SeenRegister(c, code, v);
    StepsAgree(up, Get8(c, Reg(code)), Bits(c));
    NativeGoes(p, c, o, Reg(code), fn, Reg(code), End(4));
    var c' := Set8(c, Reg(code), v);
    Ends(p, Flagged(c', f), o, 4);
    SeenFlagged(c', f);
  }

  lemma SeenFlagged(c: Registers, f: FlagBits)
    ensures Seen(Flagged(c, f)) == Seen(c).(f := f)
  {
  }

  lemma StepMemory<D>(p: Device<D>, c: Registers, o: Outside<D>, up: bool)
    ensures Effect(p, c, o, Step8(6, if up then Inc else Dec))
         == Column45(p, State(Seen(c), o), if up then 0x34 else 0x35)
  {
    hide Effect, Then, End, Slack, Priced, Apply, Stepped, ReadByte, WriteByte, Spend, Joined, Seen;
    var fn := if up then Inc else Dec;
    var store := Then(Store(Wu, Rx), End(12));
    var native := Then(Native8(Rx, fn, Rx), store);
    var c1 := PointGoes(p, c, o, Then(Load(Rx, Wu), native));
    LoadGoes(p, c1, o, Rx, Wu, native);
    var v := ReadByte(o.bus, c1.u);
    var c2 := c1.(x := v);
    var (v', f) := Apply(fn, v, Bits(c2));
    StepsAgree(up, v, Bits(c2));
    NativeGoes(p, c2, Spend(p, o), Rx, fn, Rx, store);
    var c3 := Flagged(c2.(x := v'), f);
    StoreGoes(p, c3, Spend(p, o), Wu, Rx, End(12));
    Ends(p, c3, Spend(p, Spend(p, o).(bus := WriteByte(Spend(p, o).bus, c3.u, v'))), 12);
    SeenStep(c, c1, v, v', f);
  }

  lemma SeenStep(c: Registers, c1: Registers, x: bv8, x': bv8, f: FlagBits)
    requires Seen(c1) == Seen(c)
    ensures Seen(Flagged(c1.(x := x).(x := x'), f)) == Seen(c).(f := f) && Bits(c1.(x := x)) == Seen(c).f
    ensures Joined(c.h, c.l) == Joined(Seen(c).h, Seen(c).l)
  {
  }

  lemma Column45Agrees<D>(p: Device<D>, c: Registers, o: Outside<D>, op: Opcode)
    requires op < 0x40 && (op % 8 == 4 || op % 8 == 5)
    ensures Effect(p, c, o, Step8(op / 8, if op % 8 == 4 then Inc else Dec)) == Column45(p, State(Seen(c), o), op)
  {
    hide Effect, Step8, Stepped, LoadByte, StoreByte, Joined, Register, WithRegister, Seen;
    if op / 8 == 6 {
      StepMemory(p, c, o, op % 8 == 4);
    } else {
      StepRegister(p, c, o, op / 8, op % 8 == 4);
      SeenFlags(c);
    }
  }

  lemma Column6Agrees<D>(p: Device<D>, c: Registers, o: Outside<D>, op: Opcode)
    requires op < 0x40 && op % 8 == 6
    ensures Effect(p, c, o, Low6(op)) == Column6(p, State(Seen(c), o), op)
  {
    hide Effect, Then, End, Slack, Priced, WriteR8, FetchByte, Result, Seen;
    var code := op / 8;
    if op == 0x36 {
      ImmediateToMemory(p, c, o);
    } else {
      var c1 := FetchByteGoes(p, c, o, WriteR8(code, End(8)));
      var o1 := FetchByte(p, State(Seen(c), o)).1.o;
      var c2 := WriteGoes(p, c1, o1, code, End(8));
      Ends(p, c2, Result(p, State(Seen(c1), o1), code, c1.x).o, 8);
    }
  }

  lemma ImmediateToMemory<D>(p: Device<D>, c: Registers, o: Outside<D>)
    ensures Effect(p, c, o, Low6(0x36)) == Column6(p, State(Seen(c), o), 0x36)
  {
    hide Effect, Then, End, Slack, Priced, WriteR8, FetchByte, WriteByte, Spend, Joined;
    var store := Then(Store(Wu, Rx), End(12));
    var c1 := FetchByteGoes(p, c, o, Then(Join(Wu, Rh, Rl), store));
    var o1 := FetchByte(p, State(Seen(c), o)).1.o;
    var c2 := PointGoes(p, c1, o1, store);
    StoreGoes(p, c2, o1, Wu, Rx, End(12));
    Ends(p, c2, Spend(p, o1.(bus := WriteByte(o1.bus, c2.u, c2.x))), 12);
  }

  lemma Column7Agrees<D>(p: Device<D>, c: Registers, o: Outside<D>, kind: Code)
    ensures Effect(p, c, o, Then(Native8(if kind < 6 then Ra else Rx, Accumulator(kind), Ra), End(4)))
         == (State(AccumulatorOp(Seen(c), kind), o), 4)
  {
    hide Effect, Then, End, Slack, Priced, Apply, Accumulator, AccumulatorOp, Flagged;
    var dst := if kind < 6 then Ra else Rx;
    var fn := Accumulator(kind);
    var (v, f) := Apply(fn, c.a, Bits(c));
    NativeGoes(p, c, o, dst, fn, Ra, End(4));
    AccumulatorAgrees(Seen(c), kind);
    AccumulatorKeeps(c.a, kind, Bits(c));
    var c' := if kind < 6 then c.(a := v) else c.(x := v);
    SeenFlagged(c', f);
    Ends(p, Flagged(c', f), o, 4);
  }

  lemma AccumulatorKeeps(v: bv8, kind: Code, f: FlagBits)
    ensures kind >= 6 ==> Apply(Accumulator(kind), v, f).0 == v
  {
  }

  lemma FirstQuarterAgrees<D>(p: Device<D>, c: Registers, o: Outside<D>, op: Opcode)
    requires op < 0x40
    ensures Effect(p, c, o, Low(op)) == FirstQuarter(p, State(Seen(c), o), op)
  {
    hide Effect, Then, End, Slack, Priced, Low0, Low1, Low2, Low3, Low6, Step8, Accumulator, Seen;
    hide Column0, Column1, Column2, Column3, Column45, Column6, AccumulatorOp;
    var column := op % 8;
    if column == 0 { Column0Agrees(p, c, o, op); }
    else if column == 1 { Column1Agrees(p, c, o, op); }
    else if column == 2 { Column2Agrees(p, c, o, op); }
    else if column == 3 { Column3Agrees(p, c, o, op); }
    else if column < 6 { Column45Agrees(p, c, o, op); }
    else if column == 6 { Column6Agrees(p, c, o, op); }
    else { Column7Agrees(p, c, o, op / 8); }
  }

  // ----- Opcodes 0x40 to 0xBF -----

  lemma HaltAgrees<D>(p: Device<D>, c: Registers, o: Outside<D>)
    ensures Effect(p, c, o, Then(Halt, End(4))) == HaltOp(State(Seen(c), o))
  {
    hide Effect, Then, End, Slack, Priced;
    HaltGoes(p, c, o, End(4));
    Ends(p, c.(haltBug := true), o, 4);
    Ends(p, c.(halted := true), o, 4);
  }

  lemma TransferAgrees<D>(p: Device<D>, c: Registers, o: Outside<D>, dst: Code, src: Code)
    requires !(dst == 6 && src == 6)
    ensures Effect(p, c, o, ReadR8(src, WriteR8(dst, End(4 + Extra(src) + Extra(dst)))))
         == Transfer8(p, State(Seen(c), o), dst, src)
  {
    hide Effect, Then, End, Slack, Priced, ReadR8, WriteR8, Operand, Result, Seen;
    var cost := 4 + Extra(src) + Extra(dst);
    var c1 := ReadGoes(p, c, o, src, WriteR8(dst, End(cost)));
    var (v, s1) := Operand(p, State(Seen(c), o), src);
    var c2 := WriteGoes(p, c1, s1.o, dst, End(cost));
    Ends(p, c2, Result(p, s1, dst, v).o, cost);
  }

  /** The accumulator's arithmetic on the scratch byte. */
  lemma AluGoes<D>(p: Device<D>, c: Registers, o: Outside<D>, fn: Code, cost: nat)
    ensures Effect(p, c, o, Then(AluOp(fn), End(cost))) == (State(Accumulate(Seen(c), fn, c.x), o), cost)
  {
    hide Effect, AluOp, Accumulate, Then, End, Slack, Priced;
    if fn < 4 || fn == 7 { SumOrDifference(p, c, o, fn, cost); } else { LogicOf(p, c, o, fn, cost); }
  }

  lemma SumOrDifference<D>(p: Device<D>, c: Registers, o: Outside<D>, fn: Code, cost: nat)
    requires fn < 4 || fn == 7
    ensures Effect(p, c, o, Then(AluOp(fn), End(cost))) == (State(Accumulate(Seen(c), fn, c.x), o), cost)
  {
    hide Effect, Then, End, Slack, Priced, Sum8, Less8, Seen;
    SeenBytes(c);
    if fn < 2 { SumAgrees(p, c, o, fn == 1, cost); }
    else { DifferenceAgrees(p, c, o, fn == 3, fn != 7, cost); }
  }

  lemma LogicOf<D>(p: Device<D>, c: Registers, o: Outside<D>, fn: Code, cost: nat)
    requires 4 <= fn <= 6
    ensures Effect(p, c, o, Then(AluOp(fn), End(cost))) == (State(Accumulate(Seen(c), fn, c.x), o), cost)
  {
    hide Effect, Then, End, Slack, Priced, Sum8, Less8, Seen, Mixed, Bitwise, Flagged;
    var logic := if fn == 4 then And else if fn == 5 then Xor else Or;
    var r := Mixed(fn, c.a, c.x);
    var f := FlagBits(r == 0, false, fn == 4, false);
    MixedIs(c.a, c.x);
    SeenBytes(c);
    LogicGoes(p, c, o, logic, End(cost));
    SeenFlagged(c.(a := r), f);
    SeenAccumulator(c, r);
    Ends(p, Flagged(c.(a := r), f), o, cost);
  }

  lemma MixedIs(a: bv8, b: bv8)
    ensures Bitwise(And, a, b) == Mixed(4, a, b)
    ensures Bitwise(Xor, a, b) == Mixed(5, a, b) && Bitwise(Or, a, b) == Mixed(6, a, b)
  {
  }

  lemma SumAgrees<D>(p: Device<D>, c: Registers, o: Outside<D>, with: bool, cost: nat)
    ensures var (v, f) := Sum8(c.a, c.x, with && c.fc);
      Effect(p, c, o, Then(Sum(with, Rx), End(cost))) == (State(Seen(c).(a := v, f := f), o), cost)
  {
    hide Effect, Then, End, Slack, Priced, Sum8, Flagged, Seen;
    var (v, f) := Sum8(c.a, c.x, with && c.fc);
    SumGoes(p, c, o, with, End(cost));
    SeenFlagged(c.(a := v), f);
    SeenAccumulator(c, v);
    Ends(p, Flagged(c.(a := v), f), o, cost);
  }

  lemma DifferenceAgrees<D>(p: Device<D>, c: Registers, o: Outside<D>, with: bool, keep: bool, cost: nat)
    ensures var (v, f) := Less8(c.a, c.x, with && c.fc);
      Effect(p, c, o, Then(Difference(with, keep, Rx), End(cost)))
      == (State(if keep then Seen(c).(a := v, f := f) else Seen(c).(f := f), o), cost)
  {
    hide Effect, Then, End, Slack, Priced, Less8, Flagged, Seen;
    var (v, f) := Less8(c.a, c.x, with && c.fc);
    var a := if keep then v else c.a;
    DifferenceGoes(p, c, o, with, keep, End(cost));
    SeenFlagged(c.(a := a), f);
    SeenAccumulator(c, a);
    Ends(p, Flagged(c.(a := a), f), o, cost);
  }

  lemma SeenAccumulator(c: Registers, v: bv8)
    ensures Seen(c.(a := v)) == Seen(c).(a := v) && Seen(c).a == c.a
  {
  }

  lemma ArithmeticAgrees<D>(p: Device<D>, c: Registers, o: Outside<D>, fn: Code, src: Code)
    ensures Effect(p, c, o, ReadR8(src, Then(AluOp(fn), End(4 + Extra(src)))))
         == Arithmetic8(p, State(Seen(c), o), fn, src)
  {
    hide Effect, Then, End, Slack, Priced, ReadR8, Operand, AluOp, Accumulate, Seen;
    var cost := 4 + Extra(src);
    var c1 := ReadGoes(p, c, o, src, Then(AluOp(fn), End(cost)));
    AluGoes(p, c1, Operand(p, State(Seen(c), o), src).1.o, fn, cost);
  }

  // ----- Opcodes 0xC0 to 0xFF -----

  lemma HighColumn0Agrees<D>(p: Device<D>, c: Registers, o: Outside<D>, op: Opcode)
    requires op >= 0xC0 && op % 8 == 0
    ensures Effect(p, c, o, High0(op)) == HighColumn0(p, State(Seen(c), o), op)
  {
    hide Effect, Then, End, Pop, Slack, Priced, Ret, SpPlus, Seen, StoreByte, LoadByte, FetchByte;
    if op < 0xE0 { RetAgrees(p, c, o, op); }
    else if op == 0xE0 || op == 0xF0 { PortAgrees(p, c, o, op); }
    else { StackOffsetAgrees(p, c, o, op); }
  }

  /** LDH through the byte after the opcode. */
  lemma PortAgrees<D>(p: Device<D>, c: Registers, o: Outside<D>, op: Opcode)
    requires op == 0xE0 || op == 0xF0
    ensures Effect(p, c, o, High0(op)) == HighColumn0(p, State(Seen(c), o), op)
  {
    hide Effect, Then, End, Pop, Slack, Priced, SpPlus, ReadByte, WriteByte, Spend, FetchByte;
    var access := if op == 0xE0 then Store(Wu, Ra) else Load(Ra, Wu);
    var c1 := FetchByteGoes(p, c, o, Then(HighPage(Wu, Rx), Then(access, End(12))));
    var (v, s1) := FetchByte(p, State(Seen(c), o));
    HighPageGoes(p, c1, s1.o, Wu, Rx, Then(access, End(12)));
    var c2 := c1.(u := 0xFF00 + v as nat);
    AccessAgrees(p, c2, s1.o, Wu, op == 0xF0, 12);
  }

  /** The accumulator stored to, or loaded from, where a scratch word points. */
  lemma AccessAgrees<D>(p: Device<D>, c: Registers, o: Outside<D>, addr: R16, load: bool, cost: nat)
    ensures var w := Get16(c, addr);
      Effect(p, c, o, Then(if load then Load(Ra, addr) else Store(addr, Ra), End(cost)))
      == (if load then State(Seen(c).(a := ReadByte(o.bus, w)), Spend(p, o))
          else State(Seen(c), Spend(p, o.(bus := WriteByte(o.bus, w, c.a)))), cost)
  {
    hide Effect, Then, End, Slack, Priced, ReadByte, WriteByte, Spend, Get16;
    var w := Get16(c, addr);
    if load {
      LoadGoes(p, c, o, Ra, addr, End(cost));
      Ends(p, c.(a := ReadByte(o.bus, w)), Spend(p, o), cost);
    } else {
      StoreGoes(p, c, o, addr, Ra, End(cost));
      Ends(p, c, Spend(p, o.(bus := WriteByte(o.bus, w, c.a))), cost);
    }
  }

  /** ADD SP,e and LD HL,SP+e. */
  lemma StackOffsetAgrees<D>(p: Device<D>, c: Registers, o: Outside<D>, op: Opcode)
    requires op == 0xE8 || op == 0xF8
    ensures Effect(p, c, o, High0(op)) == HighColumn0(p, State(Seen(c), o), op)
  {
    hide Effect, Then, End, Pop, Slack, Priced, SpPlus, Upper, Lower, FetchByte, Seen, Flagged;
    var add := AddSigned(if op == 0xE8 then Wsp else Wv, Wsp, Rx, true);
    var last := if op == 0xE8 then End(16) else Then(Part(Rh, Rl, Wv), End(12));
    var c1 := FetchByteGoes(p, c, o, Then(add, last));
    var (v, s1) := FetchByte(p, State(Seen(c), o));
    var (w, f) := SpPlus(s1.r, v);
    SignedGoes(p, c1, s1.o, if op == 0xE8 then Wsp else Wv, last);
    if op == 0xE8 {
      Ends(p, Flagged(c1.(sp := w), f), s1.o, 16);
      SeenFlagged(c1.(sp := w), f);
      SeenSp(c1, w);
    } else {
      var c2 := Flagged(c1.(v := w), f);
      PartGoes(p, c2, s1.o, Rh, Rl, Wv, End(12));
      Ends(p, c2.(h := Upper(w), l := Lower(w)), s1.o, 12);
      SeenHl(c1, w, f, Upper(w), Lower(w));
    }
  }

  lemma SeenSp(c: Registers, w: Word)
    ensures Seen(c.(sp := w)) == Seen(c).(sp := w)
  {
  }

  lemma SeenHl(c: Registers, w: Word, f: FlagBits, h: bv8, l: bv8)
    ensures Flagged(c.(v := w), f).v == w
    ensures Seen(Flagged(c.(v := w), f).(h := h, l := l)) == Seen(c).(h := h, l := l, f := f)
  {
  }

  lemma HighColumn1Agrees<D>(p: Device<D>, c: Registers, o: Outside<D>, op: Opcode)
    requires op >= 0xC0 && op % 8 == 1
    ensures Effect(p, c, o, High1(op)) == HighColumn1(State(Seen(c), o), op)
  {
    hide Effect, Then, End, Pop, SetPair, Slack, Priced, Ret, PopWord, Pair, Joined;
    if op == 0xC9 || op == 0xD9 {
      RetAgrees(p, c, o, op);
    } else if op == 0xE9 {
      JoinGoes(p, c, o, Wpc, Rh, Rl, End(4));
      Ends(p, c.(pc := Joined(c.h, c.l)), o, 4);
      SeenPair(c, 2);
    } else if op == 0xF9 {
      JoinGoes(p, c, o, Wsp, Rh, Rl, End(8));
      Ends(p, c.(sp := Joined(c.h, c.l)), o, 8);
      SeenPair(c, 2);
    } else if op == 0xF1 {
      PopFlagsAgrees(p, c, o);
    } else {
      PopPairAgrees(p, c, o, op);
    }
  }

  lemma Halves(hi: bv8, lo: bv8)
    ensures Upper(Joined(hi, lo)) == hi && Lower(Joined(hi, lo)) == lo
  {
    hide HighByte, LowByte;
    HalvesFromWord(hi, lo, hi as nat, lo as nat);
    HalvesAre(Joined(hi, lo));
  }

  lemma HalvesAre(w: Word)
    ensures Upper(w) == HighByte(w) && Lower(w) == LowByte(w)
  {
  }

  lemma PopPairAgrees<D>(p: Device<D>, c: Registers, o: Outside<D>, op: Opcode)
    requires op in {0xC1, 0xD1, 0xE1}
    ensures Effect(p, c, o, High1(op)) == HighColumn1(State(Seen(c), o), op)
  {
    hide Effect, Then, End, Pop, SetPair, Slack, Priced, PopWord, Joined, Upper, Lower, Seen;
    var rp := op / 16 % 4;
    var (hi, lo, s1) := PopWord(State(Seen(c), o));
    var c1 := PopGoes(p, c, o, SetPair(rp, End(12)));
    var c2 := SetPairGoes(p, c1, s1.o, rp, End(12));
    Halves(hi, lo);
    Ends(p, c2, s1.o, 12);
  }

  lemma PopFlagsAgrees<D>(p: Device<D>, c: Registers, o: Outside<D>)
    ensures Effect(p, c, o, High1(0xF1)) == HighColumn1(State(Seen(c), o), 0xF1)
  {
    hide Effect, Then, End, Pop, Slack, Priced, PopWord, Joined, Upper, Lower, Seen, ByteFlags, Flagged;
    var last := Then(FlagsIn(Rx), End(12));
    var (hi, lo, s1) := PopWord(State(Seen(c), o));
    var c1 := PopGoes(p, c, o, Then(Part(Ra, Rx, Wv), last));
    PartGoes(p, c1, s1.o, Ra, Rx, Wv, last);
    Halves(hi, lo);
    var c2 := c1.(a := hi, x := lo);
    FlagsInGoes(p, c2, s1.o, End(12));
    Ends(p, Flagged(c2, ByteFlags(lo)), s1.o, 12);
    SeenFlagged(c2, ByteFlags(lo));
    SeenPopped(c1, hi, lo);
  }

  lemma SeenPopped(c: Registers, a: bv8, x: bv8)
    ensures Seen(c.(a := a, x := x)) == Seen(c).(a := a)
  {
  }

  lemma HighColumn2Agrees<D>(p: Device<D>, c: Registers, o: Outside<D>, op: Opcode)
    requires op >= 0xC0 && op % 8 == 2
    ensures Effect(p, c, o, High2(op)) == HighColumn2(p, State(Seen(c), o), op)
  {
    hide Effect, Then, End, Fetch16, Slack, Priced, Jp, FetchWord, LoadByte, StoreByte, Seen;
    if op < 0xE0 { JpAgrees(p, c, o, op); }
    else if op == 0xE2 || op == 0xF2 { ThroughCAgrees(p, c, o, op); }
    else { AbsoluteAgrees(p, c, o, op); }
  }

  lemma ThroughCAgrees<D>(p: Device<D>, c: Registers, o: Outside<D>, op: Opcode)
    requires op == 0xE2 || op == 0xF2
    ensures Effect(p, c, o, High2(op)) == HighColumn2(p, State(Seen(c), o), op)
  {
    hide Effect, Then, End, Slack, Priced, ReadByte, WriteByte, Spend, Seen;
    var w := 0xFF00 + c.c as nat;
    SeenBytes(c);
    SeenPointer(c, w);
    HighPageGoes(p, c, o, Wu, Rc, Then(if op == 0xE2 then Store(Wu, Ra) else Load(Ra, Wu), End(8)));
    AccessAgrees(p, c.(u := w), o, Wu, op == 0xF2, 8);
  }

  lemma SeenPointer(c: Registers, w: Word)
    ensures Seen(c.(u := w)) == Seen(c)
  {
  }

  lemma AbsoluteAgrees<D>(p: Device<D>, c: Registers, o: Outside<D>, op: Opcode)
    requires op == 0xEA || op == 0xFA
    ensures Effect(p, c, o, High2(op)) == HighColumn2(p, State(Seen(c), o), op)
  {
    hide Effect, Then, End, Fetch16, Slack, Priced, ReadByte, WriteByte, Spend, FetchWord, Seen;
    var c1 := FetchWordGoes(p, c, o, Then(if op == 0xEA then Store(Wv, Ra) else Load(Ra, Wv), End(16)));
    SeenBytes(c1);
    AccessAgrees(p, c1, FetchWord(p, State(Seen(c), o)).1.o, Wv, op == 0xFA, 16);
  }

  lemma HighColumn3Agrees<D>(p: Device<D>, c: Registers, o: Outside<D>, op: Opcode)
    requires op >= 0xC0 && op % 8 == 3
    ensures Effect(p, c, o, High3(op)) == HighColumn3(p, State(Seen(c), o), op)
  {
    hide Effect, Then, End, Fetch16, Slack, Priced, Jp;
    if op == 0xC3 {
      JpAgrees(p, c, o, op);
    } else if op == 0xF3 {
      DisableAgrees(p, c, o);
    } else if op == 0xFB {
      ControlGoes(p, c, o, SetPending(true), End(4));
      Ends(p, c.(pending := true), o, 4);
    } else {
      Ends(p, c, o, 4);
    }
  }

  lemma DisableAgrees<D>(p: Device<D>, c: Registers, o: Outside<D>)
    ensures Effect(p, c, o, Then(SetIme(false), Then(SetPending(false), End(4))))
         == (State(Seen(c).(ime := false, pending := false), o), 4)
  {
    hide Effect, Then, End, Slack, Priced;
    ControlGoes(p, c, o, SetIme(false), Then(SetPending(false), End(4)));
    ControlGoes(p, c.(ime := false), o, SetPending(false), End(4));
    Ends(p, c.(ime := false, pending := false), o, 4);
  }

  /** PUSH of a pair. */
  lemma PushPairAgrees<D>(p: Device<D>, c: Registers, o: Outside<D>, op: Opcode)
    requires op in {0xC5, 0xD5, 0xE5}
    ensures Effect(p, c, o, High5(op)) == HighColumn5(p, State(Seen(c), o), op)
  {
    hide Effect, Then, End, Push, GetPair, Slack, Priced, PushWord, Joined, Upper, Lower, Seen;
    var rp := op / 16 % 4;
    var hi, lo := if rp == 0 then c.b else if rp == 1 then c.d else c.h,
                  if rp == 0 then c.c else if rp == 1 then c.e else c.l;
    var c1 := GetPairGoes(p, c, o, rp, Then(Part(Rx, Ry, Wv), Push(End(16))));
    SeenPair(c, rp);
    Halves(hi, lo);
    PartGoes(p, c1, o, Rx, Ry, Wv, Push(End(16)));
    var c2 := c1.(x := hi, y := lo);
    SeenScratch(c1, hi, lo);
    SeenBytes(c);
    var c3 := PushGoes(p, c2, o, End(16));
    Ends(p, c3, PushWord(State(Seen(c), o), hi, lo).o, 16);
  }

  lemma SeenScratch(c: Registers, x: bv8, y: bv8)
    ensures Seen(c.(x := x, y := y)) == Seen(c)
  {
  }

  lemma SeenBytes(c: Registers)
    ensures var r := Seen(c);
      r.a == c.a && r.b == c.b && r.c == c.c && r.d == c.d && r.e == c.e && r.h == c.h && r.l == c.l && r.f == Bits(c)
  {
  }

  lemma PushFlagsAgrees<D>(p: Device<D>, c: Registers, o: Outside<D>)
    ensures Effect(p, c, o, High5(0xF5)) == HighColumn5(p, State(Seen(c), o), 0xF5)
  {
    hide Effect, Then, End, Push, Slack, Priced, PushWord, Joined, Upper, Lower, Seen, FlagByte, Bits;
    var f := FlagByte(Bits(c));
    var last := Then(Part(Rx, Ry, Wv), Push(End(16)));
    FlagsOutGoes(p, c, o, Then(Join(Wv, Ra, Rx), last));
    var c1 := c.(x := f);
    JoinGoes(p, c1, o, Wv, Ra, Rx, last);
    var c2 := c1.(v := Joined(c.a, f));
    Halves(c.a, f);
    PartGoes(p, c2, o, Rx, Ry, Wv, Push(End(16)));
    var c3 := c2.(x := c.a, y := f);
    SeenSaved(c, c3);
    SeenBytes(c);
    var c4 := PushGoes(p, c3, o, End(16));
    Ends(p, c4, PushWord(State(Seen(c), o), c.a, f).o, 16);
  }

  lemma SeenSaved(c: Registers, c': Registers)
    requires c' == c.(x := c'.x, y := c'.y, v := c'.v)
    ensures Seen(c') == Seen(c)
  {
  }

  lemma HighColumn45Agrees<D>(p: Device<D>, c: Registers, o: Outside<D>, op: Opcode)
    requires op >= 0xC0
    ensures op % 8 == 4 ==> Effect(p, c, o, High4(op)) == HighColumn4(p, State(Seen(c), o), op)
    ensures op % 8 == 5 ==> Effect(p, c, o, High5(op)) == HighColumn5(p, State(Seen(c), o), op)
  {
    hide Effect, Then, End, Fetch16, Push, CallTo, GetPair, Slack, Priced, CallOp, PushWord, FlagByte, Seen;
    if (op % 8 == 4 && op < 0xE0) || op == 0xCD {
      CallAgrees(p, c, o, op);
    } else if op == 0xF5 {
      PushFlagsAgrees(p, c, o);
    } else if op in {0xC5, 0xD5, 0xE5} {
      PushPairAgrees(p, c, o, op);
    } else {
      Ends(p, c, o, 4);
    }
  }

  lemma HighColumn6Agrees<D>(p: Device<D>, c: Registers, o: Outside<D>, fn: Code)
    ensures var (v, s1) := FetchByte(p, State(Seen(c), o));
      Effect(p, c, o, Then(FetchImm(Rx), Then(AluOp(fn), End(8)))) == (s1.(r := Accumulate(s1.r, fn, v)), 8)
  {
    hide Effect, Then, End, Slack, Priced, FetchByte, AluOp, Accumulate, Seen;
    var c1 := FetchByteGoes(p, c, o, Then(AluOp(fn), End(8)));
    AluGoes(p, c1, FetchByte(p, State(Seen(c), o)).1.o, fn, 8);
  }

  lemma LastQuarterAgrees<D>(p: Device<D>, c: Registers, o: Outside<D>, op: Opcode)
    requires op >= 0xC0
    ensures Effect(p, c, o, High(op)) == LastQuarter(p, State(Seen(c), o), op)
  {
    hide Effect, Then, End, Slack, Priced, High0, High1, High2, High3, High4, High5, AluOp, CallTo, Seen;
    hide HighColumn0, HighColumn1, HighColumn2, HighColumn3, HighColumn4, HighColumn5, Rst, FetchByte, Accumulate;
    var column := op % 8;
    if column == 0 { HighColumn0Agrees(p, c, o, op); }
    else if column == 1 { HighColumn1Agrees(p, c, o, op); }
    else if column == 2 { HighColumn2Agrees(p, c, o, op); }
    else if column == 3 { HighColumn3Agrees(p, c, o, op); }
    else if column < 6 { HighColumn45Agrees(p, c, o, op); }
    else if column == 6 { HighColumn6Agrees(p, c, o, op / 8 % 8); }
    else { RstAgrees(p, c, o, op); }
  }

  // ----- All opcodes -----

  /** Every opcode but the prefix, run as the core runs it, does what the manual says to registers,
      flags, memory, peripherals and time, and declares the manual's cost. */
  lemma EveryOpcode<D>(p: Device<D>, c: Registers, o: Outside<D>, op: Opcode)
    ensures Effect(p, c, o, Body(op)) == Instruction(p, State(Seen(c), o), op)
  {
    hide Effect, Then, End, Slack, Priced, Low, High, ReadR8, WriteR8, AluOp, Seen;
    hide FirstQuarter, LastQuarter, HaltOp, Transfer8, Arithmetic8;
    if op < 0x40 { FirstQuarterAgrees(p, c, o, op); }
    else if op == 0x76 { HaltAgrees(p, c, o); }
    else if op < 0x80 { TransferAgrees(p, c, o, op / 8 % 8, op % 8); }
    else if op < 0xC0 { ArithmeticAgrees(p, c, o, op / 8 % 8, op % 8); }
    else { LastQuarterAgrees(p, c, o, op); }
  }

  // ----- Prefixed opcodes -----

  /** Reads an operand, applies a byte function to it, and writes it back. */
  lemma RewriteAgrees<D>(p: Device<D>, c: Registers, o: Outside<D>, code: Code, fn: Fn8, cost: nat)
    ensures var (v, s1) := Operand(p, State(Seen(c), o), code);
      var (v', f) := Apply(fn, v, Bits(c));
      Effect(p, c, o, ReadR8(code, Then(Native8(Rx, fn, Rx), WriteR8(code, End(cost)))))
      == (Result(p, s1.(r := s1.r.(f := f)), code, v'), cost)
  {
    hide Effect, Then, End, Slack, Priced, ReadR8, WriteR8, Operand, Result, Apply, Seen, Flagged, Bits;
    var write := WriteR8(code, End(cost));
    var c1 := ReadGoes(p, c, o, code, Then(Native8(Rx, fn, Rx), write));
    var (v, s1) := Operand(p, State(Seen(c), o), code);
    OperandKeepsFlags(p, State(Seen(c), o), code);
    SeenFlags(c);
    SeenFlags(c1);
    var (v', f) := Apply(fn, v, Bits(c));
    NativeGoes(p, c1, s1.o, Rx, fn, Rx, write);
    var c2 := Flagged(c1.(x := v'), f);
    SeenApplied(c1, v', f);
    var c3 := WriteGoes(p, c2, s1.o, code, End(cost));
    Ends(p, c3, Result(p, State(Seen(c2), s1.o), code, v').o, cost);
  }

  lemma OperandKeepsFlags<D>(p: Device<D>, s: State<D>, code: Code)
    ensures Operand(p, s, code).1.r == s.r
  {
    hide ReadByte, Spend, Joined;
  }

  lemma SeenApplied(c: Registers, v: bv8, f: FlagBits)
    ensures Seen(Flagged(c.(x := v), f)) == Seen(c).(f := f) && Flagged(c.(x := v), f).x == v
  {
  }

  lemma TestAgrees<D>(p: Device<D>, c: Registers, o: Outside<D>, code: Code, bit: Code, cost: nat)
    ensures var (v, s1) := Operand(p, State(Seen(c), o), code);
      Effect(p, c, o, ReadR8(code, Then(Native8(Rx, TestBit(bit), Rx), End(cost))))
      == (s1.(r := s1.r.(f := FlagBits(!HasBit(v, bit), false, true, Seen(c).f.c))), cost)
  {
    hide Effect, Then, End, Slack, Priced, ReadR8, Operand, Seen, Flagged, Bits, BitClear, HasBit;
    var c1 := ReadGoes(p, c, o, code, Then(Native8(Rx, TestBit(bit), Rx), End(cost)));
    var (v, s1) := Operand(p, State(Seen(c), o), code);
    OperandKeepsFlags(p, State(Seen(c), o), code);
    SeenFlags(c);
    SeenFlags(c1);
    TestIs(bit, v);
    var f := FlagBits(!HasBit(v, bit), false, true, Seen(c).f.c);
    NativeGoes(p, c1, s1.o, Rx, TestBit(bit), Rx, End(cost));
    SeenApplied(c1, v, f);
    Ends(p, Flagged(c1.(x := v), f), s1.o, cost);
  }

  lemma TestIs(bit: Code, v: bv8)
    ensures BitClear(v, bit) == !HasBit(v, bit)
  {
    hide BitMask;
    MaskAgrees(bit);
  }

  lemma BitsAgree(bit: Code, v: bv8, f: FlagBits)
    ensures Apply(ResetBit(bit), v, f) == (Without(v, bit), f) && Apply(SetBit(bit), v, f) == (With(v, bit), f)
  {
    hide BitMask;
    MaskAgrees(bit);
  }

  lemma TurnedAgrees<D>(p: Device<D>, c: Registers, o: Outside<D>, kind: Code, code: Code)
    ensures Effect(p, c, o, CbBody(8 * kind + code)) == Prefixed(p, State(Seen(c), o), 8 * kind + code)
  {
    hide Effect, Then, End, Slack, Priced, ReadR8, WriteR8, Operand, Result, Apply, Seen, Turned;
    SubCode(0, kind, code);
    SeenFlags(c);
    TurnsAgree(kind, Operand(p, State(Seen(c), o), code).0, Bits(c));
    RewriteAgrees(p, c, o, code, Rotate(kind), 8 + 2 * Extra(code));
  }

  lemma TestedAgrees<D>(p: Device<D>, c: Registers, o: Outside<D>, bit: Code, code: Code)
    ensures Effect(p, c, o, CbBody(0x40 + 8 * bit + code)) == Prefixed(p, State(Seen(c), o), 0x40 + 8 * bit + code)
  {
    hide Effect, Then, End, Slack, Priced, ReadR8, WriteR8, Operand, Result, Apply, Seen, Turned, HasBit, Without, With;
    SubCode(1, bit, code);
    TestAgrees(p, c, o, code, bit, 8 + Extra(code));
  }

  lemma ResetAgrees<D>(p: Device<D>, c: Registers, o: Outside<D>, bit: Code, code: Code)
    ensures Effect(p, c, o, CbBody(0x80 + 8 * bit + code)) == Prefixed(p, State(Seen(c), o), 0x80 + 8 * bit + code)
  {
    hide Effect, Then, End, Slack, Priced, ReadR8, WriteR8, Operand, Result, Apply, Seen, Turned, HasBit, Without, With;
    SubCode(2, bit, code);
    SeenFlags(c);
    OperandKeepsFlags(p, State(Seen(c), o), code);
    BitsAgree(bit, Operand(p, State(Seen(c), o), code).0, Bits(c));
    RewriteAgrees(p, c, o, code, ResetBit(bit), 8 + 2 * Extra(code));
  }

  lemma SetAgrees<D>(p: Device<D>, c: Registers, o: Outside<D>, bit: Code, code: Code)
    ensures Effect(p, c, o, CbBody(0xC0 + 8 * bit + code)) == Prefixed(p, State(Seen(c), o), 0xC0 + 8 * bit + code)
  {
    hide Effect, Then, End, Slack, Priced, ReadR8, WriteR8, Operand, Result, Apply, Seen, Turned, HasBit, Without, With;
    SubCode(3, bit, code);
    SeenFlags(c);
    OperandKeepsFlags(p, State(Seen(c), o), code);
    BitsAgree(bit, Operand(p, State(Seen(c), o), code).0, Bits(c));
    RewriteAgrees(p, c, o, code, SetBit(bit), 8 + 2 * Extra(code));
  }

  /** And so does every prefixed opcode. */
  lemma EveryPrefixed<D>(p: Device<D>, c: Registers, o: Outside<D>, sub: Opcode)
    ensures Effect(p, c, o, CbBody(sub)) == Prefixed(p, State(Seen(c), o), sub)
  {
    hide Effect, CbBody, Prefixed, Seen;
    var code, bit := sub % 8, sub / 8 % 8;
    if sub < 0x40 { TurnedAgrees(p, c, o, bit, code); }
    else if sub < 0x80 { TestedAgrees(p, c, o, bit, code); }
    else if sub < 0xC0 { ResetAgrees(p, c, o, bit, code); }
    else { SetAgrees(p, c, o, bit, code); }
  }
}
