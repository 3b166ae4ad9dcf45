/**
 Lifting commutes with running, layer by layer: bus calls, time, micro-operations, instruction
 bodies, opcodes, interrupts, and whole runs of the stepping loop.
 */
module Lockstep {
  import opened RingLayout
  import opened MemoryBus
  import opened Core
  import opened Instructions
  import opened CoreLoop
  import opened Lanes

  type Scalar<D> = Machine<bv8, Word, bool, Bus, D>

  // ----- Time -----

  lemma {:induction false} TurnSim<D>(n: nat, p: Device<D>, bus: Bus, dev: D, turns: nat)
    requires n > 0
    ensures var (bus', dev') := Turn(ScalarBackend(), p, bus, dev, turns);
      Turn(SimdBackend(n), p, Splat(n, bus), dev, turns) == (Splat(n, bus'), dev')
    decreases turns
  {
    hide ScalarBackend, SimdBackend, Splat;
    if turns > 0 {
      match p.ask(dev) {
        case None =>
        case Some(call) =>
          ServeSim(n, bus, call);
          var (bus', answer) := ScalarBackend().serve(bus, call);
          TurnSim(n, p, bus', p.tell(dev, answer), turns - 1);
      }
    }
  }

  lemma ConsumeSim<D>(n: nat, p: Device<D>, m: Scalar<D>, c: nat)
    requires n > 0
    ensures Consume(SimdBackend(n), p, Lift(n, m), c) == Lift(n, Consume(ScalarBackend(), p, m, c))
  {
    hide ScalarBackend, SimdBackend, Splat, Turn, LiftCpu;
    if c > 0 { TurnSim(n, p, m.bus, p.begin(m.dev, c), p.turns); }
  }

  lemma ChargeSim<D>(n: nat, p: Device<D>, m: Scalar<D>)
    requires n > 0
    ensures Charge(SimdBackend(n), p, Lift(n, m)) == Lift(n, Charge(ScalarBackend(), p, m))
  {
    hide ScalarBackend, SimdBackend, Splat, Consume, LiftCpu;
    ConsumeSim(n, p, m, 4);
  }

  // ----- Words and bytes through the native world -----

  /** A word computed natively from lane 0 and spread again. */
  lemma WordSim(n: nat, w: Word)
    requires n > 0
    ensures SimdBackend(n).toU16(Splat(n, w)) == ScalarBackend().toU16(w) == w
    ensures SimdBackend(n).fromU16(w) == Splat(n, ScalarBackend().fromU16(w)) && ScalarBackend().fromU16(w) == w
  {
    hide Splat;
    ConvertSim(n, 0, w, false);
  }

  lemma ByteSim(n: nat, v: bv8)
    requires n > 0
    ensures SimdBackend(n).toU8(Splat(n, v)) == ScalarBackend().toU8(v) == v
    ensures SimdBackend(n).fromU8(v) == Splat(n, ScalarBackend().fromU8(v)) && ScalarBackend().fromU8(v) == v
  {
    hide Splat;
    ConvertSim(n, v, 0, false);
  }

  lemma FetchSim<D>(n: nat, m: Scalar<D>, dst: R8)
    requires n > 0
    ensures Fetch(SimdBackend(n), Lift(n, m), dst) == Lift(n, Fetch(ScalarBackend(), m, dst))
  {
    hide ScalarBackend, SimdBackend, Splat, Set8;
    var k := ScalarBackend();
    var c := m.cpu;
    ReadSim(n, m.bus, c.pc);
    WordSim(n, c.pc);
    var next := WordAdd(c.pc, 1);
    WordSim(n, next);
    WordSim(n, WordAdd(next, 0xFFFF));
    var pc := if c.haltBug then WordAdd(next, 0xFFFF) else next;
    SetSim(n, c.(pc := pc, haltBug := false), dst, k.read(m.bus, c.pc));
  }

  // ----- Register operations -----

  /** A register operation on equal lanes does to every lane what it does to the scalar registers. */
  ghost predicate Agrees(n: nat, c: Cpu<bv8, Word, bool>, op: Op) {
    OnCpu(SimdBackend(n), LiftCpu(n, c), op) == LiftCpu(n, OnCpu(ScalarBackend(), c, op))
  }

  lemma JoinSim(n: nat, c: Cpu<bv8, Word, bool>, dst: R16, hi: R8, lo: R8)
    requires n > 0
    ensures Agrees(n, c, Join(dst, hi, lo))
  {
    hide ScalarBackend, SimdBackend, Splat, LiftCpu, Set16, Get8;
    GetSim(n, c, hi, Wu);
    GetSim(n, c, lo, Wu);
    CombineSim(n, Get8(c, hi), Get8(c, lo));
    Set16Sim(n, c, dst, ScalarBackend().combine(Get8(c, hi), Get8(c, lo)));
  }

  lemma PartSim(n: nat, c: Cpu<bv8, Word, bool>, hi: R8, lo: R8, src: R16)
    requires n > 0
    ensures Agrees(n, c, Part(hi, lo, src))
  {
    hide ScalarBackend, SimdBackend, Splat, LiftCpu, Set8, Get16;
    var w := Get16(c, src);
    GetSim(n, c, hi, src);
    SplitSim(n, w);
    SetSim(n, c, hi, ScalarBackend().high(w));
    SetSim(n, Set8(c, hi, ScalarBackend().high(w)), lo, ScalarBackend().low(w));
  }

  lemma CopySim(n: nat, c: Cpu<bv8, Word, bool>, op: Op)
    requires n > 0 && (op.Copy8? || op.Copy16?)
    ensures Agrees(n, c, op)
  {
    hide ScalarBackend, SimdBackend, Splat, LiftCpu, Set8, Set16, Get8, Get16;
    if op.Copy8? {
      GetSim(n, c, op.src, Wu);
      SetSim(n, c, op.dst, Get8(c, op.src));
    } else {
      GetSim(n, c, Rx, op.wsrc);
      Set16Sim(n, c, op.wdst, Get16(c, op.wsrc));
    }
  }

  lemma AccumulatorSim(n: nat, c: Cpu<bv8, Word, bool>)
    ensures LiftCpu(n, c).a == Splat(n, c.a)
    ensures forall v: bv8 :: LiftCpu(n, c).(a := Splat(n, v)) == LiftCpu(n, c.(a := v))
  {
    hide Splat;
  }

  lemma LogicOpSim(n: nat, c: Cpu<bv8, Word, bool>, fn: LogicFn, operand: R8)
    requires n > 0
    ensures Agrees(n, c, Logic(fn, operand))
  {
    hide ScalarBackend, SimdBackend, Splat, LiftCpu, Get8, WithFlags;
    var r := ScalarBackend().logic(fn, c.a, Get8(c, operand));
    GetSim(n, c, operand, Wu);
    AccumulatorSim(n, c);
    LogicSim(n, fn, c.a, Get8(c, operand));
    ByteSim(n, r);
    WithFlagsSim(n, c.(a := r), FlagBits(r == 0, false, fn == And, false));
  }

  lemma CarrySim(n: nat, c: Cpu<bv8, Word, bool>)
    requires n > 0
    ensures SimdBackend(n).test(LiftCpu(n, c).fc) == ScalarBackend().test(c.fc)
  {
    hide ScalarBackend, SimdBackend, Splat;
    MaskSim(n, c.fc);
  }

  lemma SumSim(n: nat, c: Cpu<bv8, Word, bool>, withCarry: bool, operand: R8)
    requires n > 0
    ensures Agrees(n, c, Sum(withCarry, operand))
  {
    hide ScalarBackend, SimdBackend, Splat, LiftCpu, Get8, WithFlags;
    var carry := withCarry && ScalarBackend().test(c.fc);
    var (r, f) := ScalarBackend().add(c.a, Get8(c, operand), carry);
    GetSim(n, c, operand, Wu);
    CarrySim(n, c);
    AccumulatorSim(n, c);
    AddSim(n, c.a, Get8(c, operand), carry);
    WithFlagsSim(n, c.(a := r), f);
  }

  lemma DifferenceSim(n: nat, c: Cpu<bv8, Word, bool>, withBorrow: bool, keep: bool, operand: R8)
    requires n > 0
    ensures var op := Difference(withBorrow, keep, operand);
      Agrees(n, c, op)
  {
    hide ScalarBackend, SimdBackend, Splat, LiftCpu, Get8, WithFlags;
    var borrow := withBorrow && ScalarBackend().test(c.fc);
    var (r, f) := ScalarBackend().sub(c.a, Get8(c, operand), borrow);
    GetSim(n, c, operand, Wu);
    CarrySim(n, c);
    AccumulatorSim(n, c);
    SubSim(n, c.a, Get8(c, operand), borrow);
    WithFlagsSim(n, c.(a := r), f);
    WithFlagsSim(n, c, f);
  }

  lemma NativeSim(n: nat, c: Cpu<bv8, Word, bool>, dst: R8, fn: Fn8, src: R8)
    requires n > 0
    ensures Agrees(n, c, Native8(dst, fn, src))
  {
    hide ScalarBackend, SimdBackend, Splat, LiftCpu, Get8, Set8, WithFlags, Flags, Apply;
    GetSim(n, c, src, Wu);
    ByteSim(n, Get8(c, src));
    FlagsSim(n, c);
    var (r, f) := Apply(fn, Get8(c, src), Flags(ScalarBackend(), c));
    ByteSim(n, r);
    SetSim(n, c, dst, r);
    WithFlagsSim(n, Set8(c, dst, r), f);
  }

  lemma OffsetSim(n: nat, c: Cpu<bv8, Word, bool>, dst: R16, src: R16, delta: Word)
    requires n > 0
    ensures Agrees(n, c, Offset(dst, src, delta))
  {
    hide ScalarBackend, SimdBackend, Splat, LiftCpu, Get16, Set16;
    GetSim(n, c, Rx, src);
    WordSim(n, Get16(c, src));
    WordSim(n, WordAdd(Get16(c, src), delta));
    Set16Sim(n, c, dst, WordAdd(Get16(c, src), delta));
  }

  lemma AddWordsSim(n: nat, c: Cpu<bv8, Word, bool>, dst: R16, src: R16, rhs: R16)
    requires n > 0
    ensures Agrees(n, c, AddWords(dst, src, rhs))
  {
    hide ScalarBackend, SimdBackend, Splat, LiftCpu, Get16, Set16;
    var a, b := Get16(c, src), Get16(c, rhs);
    GetSim(n, c, Rx, src);
    GetSim(n, c, Rx, rhs);
    WordSim(n, a);
    WordSim(n, b);
    WordSim(n, WordAdd(a, b));
    Set16Sim(n, c, dst, WordAdd(a, b));
    var half, carry := (a as int) % 0x1000 + (b as int) % 0x1000 > 0xFFF, (a as int) + (b as int) > 0xFFFF;
    MaskSim(n, false);
    MaskSim(n, half);
    MaskSim(n, carry);
    var k := ScalarBackend();
    LowFlagsSim(n, Set16(c, dst, WordAdd(a, b)), k.mask(false), k.mask(half), k.mask(carry));
  }

  lemma LowFlagsSim(n: nat, c: Cpu<bv8, Word, bool>, fn: bool, fh: bool, fc: bool)
    ensures LiftCpu(n, c).(fn := Splat(n, fn), fh := Splat(n, fh), fc := Splat(n, fc))
         == LiftCpu(n, c.(fn := fn, fh := fh, fc := fc))
  {
    hide Splat;
  }

  lemma AddSignedSim(n: nat, c: Cpu<bv8, Word, bool>, dst: R16, src: R16, off: R8, flags: bool)
    requires n > 0
    ensures var op := AddSigned(dst, src, off, flags);
      Agrees(n, c, op)
  {
    hide ScalarBackend, SimdBackend, Splat, LiftCpu, Get8, Get16, Set16, WithFlags, SumDiffers;
    var a, b := Get16(c, src), Signed(Get8(c, off));
    GetSim(n, c, off, src);
    WordSim(n, a);
    ByteSim(n, Get8(c, off));
    WordSim(n, WordAdd(a, b));
    Set16Sim(n, c, dst, WordAdd(a, b));
    WithFlagsSim(n, Set16(c, dst, WordAdd(a, b)),
                 FlagBits(false, false, SumDiffers(a, b, 0x0010), SumDiffers(a, b, 0x0100)));
  }

  lemma PutSim(n: nat, c: Cpu<bv8, Word, bool>, op: Op)
    requires n > 0 && (op.HighPage? || op.PutWord?)
    ensures Agrees(n, c, op)
  {
    hide ScalarBackend, SimdBackend, Splat, LiftCpu, Get8, Set16;
    if op.HighPage? {
      GetSim(n, c, op.src, Wu);
      ByteSim(n, Get8(c, op.src));
      WordSim(n, HighWord(Get8(c, op.src)));
      Set16Sim(n, c, op.wdst, HighWord(Get8(c, op.src)));
    } else {
      WordSim(n, op.word);
      Set16Sim(n, c, op.wdst, op.word);
    }
  }

  lemma FlagBytesSim(n: nat, c: Cpu<bv8, Word, bool>, op: Op)
    requires n > 0 && (op.FlagsOut? || op.FlagsIn?)
    ensures Agrees(n, c, op)
  {
    hide ScalarBackend, SimdBackend, Splat, LiftCpu, Get8, Set8, Flags, WithFlags, FlagsToByte, FlagsFromByte;
    if op.FlagsOut? {
      FlagsSim(n, c);
      var v := FlagsToByte(Flags(ScalarBackend(), c));
      ByteSim(n, v);
      SetSim(n, c, op.dst, v);
    } else {
      GetSim(n, c, op.src, Wu);
      ByteSim(n, Get8(c, op.src));
      WithFlagsSim(n, c, FlagsFromByte(Get8(c, op.src) & 0xF0));
    }
  }

  lemma SwitchSim(n: nat, c: Cpu<bv8, Word, bool>, op: Op)
    requires op.SetIme? || op.SetPending? || op.Stop?
    ensures Agrees(n, c, op)
  {
    hide ScalarBackend, SimdBackend, Splat;
  }

  predicate Inner(op: Op) {
    !(op.FetchImm? || op.Load? || op.Store? || op.BareLoad? || op.BareStore? || op.Halt?)
  }

  lemma OnCpuSim(n: nat, c: Cpu<bv8, Word, bool>, op: Op)
    requires n > 0 && Inner(op)
    ensures Agrees(n, c, op)
  {
    hide ScalarBackend, SimdBackend, Splat, LiftCpu, OnCpu;
    match op {
      case Join(dst, hi, lo) => JoinSim(n, c, dst, hi, lo);
      case Part(hi, lo, src) => PartSim(n, c, hi, lo, src);
      case Copy8(_, _) => CopySim(n, c, op);
      case Copy16(_, _) => CopySim(n, c, op);
      case Logic(fn, operand) => LogicOpSim(n, c, fn, operand);
      case Sum(withCarry, operand) => SumSim(n, c, withCarry, operand);
      case Difference(withBorrow, keep, operand) => DifferenceSim(n, c, withBorrow, keep, operand);
      case Native8(dst, fn, src) => NativeSim(n, c, dst, fn, src);
      case Offset(dst, src, delta) => OffsetSim(n, c, dst, src, delta);
      case AddWords(dst, src, rhs) => AddWordsSim(n, c, dst, src, rhs);
      case AddSigned(dst, src, off, flags) => AddSignedSim(n, c, dst, src, off, flags);
      case HighPage(_, _) => PutSim(n, c, op);
      case PutWord(_, _) => PutSim(n, c, op);
      case FlagsOut(_) => FlagBytesSim(n, c, op);
      case FlagsIn(_) => FlagBytesSim(n, c, op);
      case _ => SwitchSim(n, c, op);
    }
  }

  // ----- Operations that reach the bus -----

  lemma LoadSim<D>(n: nat, m: Scalar<D>, dst: R8, addr: R16)
    requires n > 0
    ensures var s := Lift(n, m);
      s.(cpu := Set8(s.cpu, dst, SimdBackend(n).read(s.bus, Get16(s.cpu, addr))))
      == Lift(n, m.(cpu := Set8(m.cpu, dst, ScalarBackend().read(m.bus, Get16(m.cpu, addr)))))
  {
    hide ScalarBackend, SimdBackend, Splat, LiftCpu, Set8, Get16;
    GetSim(n, m.cpu, dst, addr);
    ReadSim(n, m.bus, Get16(m.cpu, addr));
    SetSim(n, m.cpu, dst, ScalarBackend().read(m.bus, Get16(m.cpu, addr)));
  }

  lemma StoreSim<D>(n: nat, m: Scalar<D>, addr: R16, src: R8)
    requires n > 0
    ensures var s := Lift(n, m);
      s.(bus := SimdBackend(n).write(s.bus, Get16(s.cpu, addr), Get8(s.cpu, src)))
      == Lift(n, m.(bus := ScalarBackend().write(m.bus, Get16(m.cpu, addr), Get8(m.cpu, src))))
  {
    hide ScalarBackend, SimdBackend, Splat, LiftCpu, Get8, Get16;
    GetSim(n, m.cpu, src, addr);
    WriteSim(n, m.bus, Get16(m.cpu, addr), Get8(m.cpu, src));
  }

  lemma InterruptRegsSim(n: nat, bus: Bus)
    requires n > 0
    ensures InterruptEnable(SimdBackend(n), Splat(n, bus)) == InterruptEnable(ScalarBackend(), bus)
    ensures InterruptFlags(SimdBackend(n), Splat(n, bus)) == InterruptFlags(ScalarBackend(), bus)
  {
    hide ScalarBackend, SimdBackend, Splat;
    ServeSim(n, bus, GetIe);
    ServeSim(n, bus, GetIf);
  }

  lemma HaltSim<D>(n: nat, p: Device<D>, m: Scalar<D>)
    requires n > 0
    ensures Exec(SimdBackend(n), p, Lift(n, m), Halt) == Lift(n, Exec(ScalarBackend(), p, m, Halt))
  {
    hide ScalarBackend, SimdBackend, Splat, InterruptEnable, InterruptFlags;
    InterruptRegsSim(n, m.bus);
  }

  lemma ExecSim<D>(n: nat, p: Device<D>, m: Scalar<D>, op: Op)
    requires n > 0
    ensures Exec(SimdBackend(n), p, Lift(n, m), op) == Lift(n, Exec(ScalarBackend(), p, m, op))
  {
    hide ScalarBackend, SimdBackend, Splat, LiftCpu, OnCpu, Charge, Fetch, Set8, Get8, Get16;
    if op.FetchImm? {
      FetchSim(n, m, op.dst);
      ChargeSim(n, p, Fetch(ScalarBackend(), m, op.dst));
    } else if op.Load? || op.BareLoad? {
      LoadSim(n, m, op.dst, op.addr);
      ChargeSim(n, p, m.(cpu := Set8(m.cpu, op.dst, ScalarBackend().read(m.bus, Get16(m.cpu, op.addr)))));
    } else if op.Store? || op.BareStore? {
      StoreSim(n, m, op.addr, op.src);
      ChargeSim(n, p, m.(bus := ScalarBackend().write(m.bus, Get16(m.cpu, op.addr), Get8(m.cpu, op.src))));
    } else if op.Halt? {
      HaltSim(n, p, m);
    } else {
      OnCpuSim(n, m.cpu, op);
    }
  }

  // ----- Instructions -----

  lemma LiftFlags<D>(n: nat, m: Scalar<D>)
    requires n > 0
    ensures Flags(SimdBackend(n), Lift(n, m).cpu) == Flags(ScalarBackend(), m.cpu)
  {
    hide ScalarBackend, SimdBackend, Splat, LiftCpu, Flags;
    FlagsSim(n, m.cpu);
  }

  /** Any instruction body at all, not only those of the table. */
  lemma {:induction false} RunSim<D>(n: nat, p: Device<D>, m: Scalar<D>, body: Prog)
    requires n > 0
    ensures var (m', cost) := Run(ScalarBackend(), p, m, body);
      Run(SimdBackend(n), p, Lift(n, m), body) == (Lift(n, m'), cost)
    decreases body
  {
    hide ScalarBackend, SimdBackend, Splat, Lift, Exec, Flags, Condition;
    match body {
      case Done(cost) =>
      case Do(op, next) =>
        ExecSim(n, p, m, op);
        RunSim(n, p, Exec(ScalarBackend(), p, m, op), next);
      case If(cc, taken, other) =>
        LiftFlags(n, m);
        RunSim(n, p, m, if Condition(Flags(ScalarBackend(), m.cpu), cc) then taken else other);
    }
  }

  lemma ScratchSim<D>(n: nat, m: Scalar<D>)
    requires n > 0
    ensures SimdBackend(n).toU8(Lift(n, m).cpu.x) == ScalarBackend().toU8(m.cpu.x) == m.cpu.x
  {
    hide ScalarBackend, SimdBackend, Splat;
    ByteSim(n, m.cpu.x);
  }

  lemma DispatchSim<D>(n: nat, p: Device<D>, m: Scalar<D>, opcode: bv8)
    requires n > 0
    ensures var (m', cost) := Dispatch(ScalarBackend(), p, m, opcode);
      Dispatch(SimdBackend(n), p, Lift(n, m), opcode) == (Lift(n, m'), cost)
  {
    hide ScalarBackend, SimdBackend, Splat, Lift, Exec, Run, Body, CbBody;
    if opcode == 0xCB {
      var m1 := Exec(ScalarBackend(), p, m, FetchImm(Rx));
      ExecSim(n, p, m, FetchImm(Rx));
      ScratchSim(n, m1);
      RunSim(n, p, m1, CbBody(m1.cpu.x as nat));
    } else {
      RunSim(n, p, m, Body(opcode as nat));
    }
  }

  lemma SettleSim(n: nat, c: Cpu<bv8, Word, bool>, pendingBefore: bool, opcode: bv8)
    ensures Settle(LiftCpu(n, c), pendingBefore, opcode) == LiftCpu(n, Settle(c, pendingBefore, opcode))
  {
    hide Splat;
  }

  lemma TopUpSim<D>(n: nat, p: Device<D>, m: Scalar<D>, cost: nat)
    requires n > 0
    ensures TopUp(SimdBackend(n), p, Lift(n, m), cost) == Lift(n, TopUp(ScalarBackend(), p, m, cost))
  {
    hide ScalarBackend, SimdBackend, Splat, LiftCpu, Consume;
    if cost > m.credit { ConsumeSim(n, p, m, cost - m.credit); }
  }

  lemma OpeningSim<D>(n: nat, p: Device<D>, m: Scalar<D>)
    requires n > 0
    ensures Opening(SimdBackend(n), p, Lift(n, m)) == Lift(n, Opening(ScalarBackend(), p, m))
  {
    hide ScalarBackend, SimdBackend, Splat, LiftCpu, Charge, Fetch;
    FetchSim(n, m.(credit := 0), Rx);
    ChargeSim(n, p, Fetch(ScalarBackend(), m.(credit := 0), Rx));
  }

  lemma ExecuteSim<D>(n: nat, p: Device<D>, m: Scalar<D>)
    requires n > 0
    ensures var (m', cost) := ExecuteOpcode(ScalarBackend(), p, m);
      ExecuteOpcode(SimdBackend(n), p, Lift(n, m)) == (Lift(n, m'), cost)
  {
    hide ScalarBackend, SimdBackend, Splat, LiftCpu, Opening, Dispatch, Settle, TopUp;
    OpeningSim(n, p, m);
    var m1 := Opening(ScalarBackend(), p, m);
    ScratchSim(n, m1);
    DispatchSim(n, p, m1, m1.cpu.x);
    var (m2, cost) := Dispatch(ScalarBackend(), p, m1, m1.cpu.x);
    PendingSim(n, m);
    SettleSim(n, m2.cpu, m.cpu.pending, m1.cpu.x);
    TopUpSim(n, p, m2.(cpu := Settle(m2.cpu, m.cpu.pending, m1.cpu.x)), cost);
  }

  lemma PendingSim<D>(n: nat, m: Scalar<D>)
    ensures var c, d := Lift(n, m).cpu, m.cpu;
      c.pending == d.pending && c.ime == d.ime && c.halted == d.halted
  {
    hide Splat;
  }

  // ----- Interrupts -----

  lemma AcknowledgeSim<D>(n: nat, m: Scalar<D>, bit: nat)
    requires n > 0
    ensures Acknowledged(SimdBackend(n), Lift(n, m), bit) == Lift(n, Acknowledged(ScalarBackend(), m, bit))
  {
    hide ScalarBackend, SimdBackend, Splat, InterruptFlags, BitMask;
    InterruptRegsSim(n, m.bus);
    ServeSim(n, m.bus, PutIf(InterruptFlags(ScalarBackend(), m.bus) & !BitMask(bit)));
  }

  lemma EnterSim<D>(n: nat, p: Device<D>, m: Scalar<D>, bit: nat)
    requires n > 0 && bit < 5
    ensures Enter(SimdBackend(n), p, Lift(n, m), bit) == Lift(n, Enter(ScalarBackend(), p, m, bit))
  {
    hide ScalarBackend, SimdBackend, Splat, Run, Consume, Lift, Acknowledged, CallTo, Then, End;
    var k := ScalarBackend();
    AcknowledgeSim(n, m, bit);
    var m1 := Acknowledged(k, m, bit);
    var body := CallTo(Then(PutWord(Wpc, Vector(bit)), End(20)));
    RunSim(n, p, m1, body);
    ConsumeSim(n, p, Run(k, p, m1, body).0, 20);
  }

  lemma LinesSim(n: nat, bus: Bus)
    requires n > 0
    ensures Pending(SimdBackend(n), Splat(n, bus)) == Pending(ScalarBackend(), bus)
  {
    hide ScalarBackend, SimdBackend, Splat, InterruptEnable, InterruptFlags;
    InterruptRegsSim(n, bus);
  }

  lemma AwakeSim<D>(n: nat, m: Scalar<D>)
    ensures var l := Lift(n, m); l.(cpu := l.cpu.(halted := false)) == Lift(n, m.(cpu := m.cpu.(halted := false)))
  {
    hide Splat;
  }

  lemma ServiceSim<D>(n: nat, p: Device<D>, m: Scalar<D>)
    requires n > 0
    ensures var r := ServiceInterrupts(ScalarBackend(), p, m);
      ServiceInterrupts(SimdBackend(n), p, Lift(n, m))
      == if r.Panic? then Panic else Fine((Lift(n, r.value.0), r.value.1))
  {
    hide ScalarBackend, SimdBackend, Splat, LiftCpu, Enter, Pending, TrailingZeros;
    LinesSim(n, m.bus);
    PendingSim(n, m);
    AwakeSim(n, m);
    var bit := TrailingZeros(Pending(ScalarBackend(), m.bus));
    if bit < 5 { EnterSim(n, p, m, bit); }
  }

  // ----- Steps and runs -----

  lemma Turn1Sim<D>(n: nat, p: Device<D>, m: Scalar<D>, budget: nat)
    requires n > 0
    ensures var r := Turn1(ScalarBackend(), p, m, budget);
      Turn1(SimdBackend(n), p, Lift(n, m), budget) == if r.Panic? then Panic else Fine(Lift(n, r.value))
  {
    hide ScalarBackend, SimdBackend, Splat, LiftCpu, ServiceInterrupts, ExecuteOpcode, Consume;
    ServiceSim(n, p, m);
    var r := ServiceInterrupts(ScalarBackend(), p, m);
    if r.Fine? {
      PendingSim(n, r.value.0);
      ConsumeSim(n, p, r.value.0, Min(budget, 4));
      ExecuteSim(n, p, r.value.0);
    }
  }

  /** A step by a cycle budget: the same cycles consumed, the same stop, every lane the scalar core. */
  lemma {:induction false} StepSim<D>(n: nat, p: Device<D>, m: Scalar<D>, budget: nat, consumed: nat)
    requires n > 0
    ensures var r := StepLoop(ScalarBackend(), p, m, budget, consumed);
      StepLoop(SimdBackend(n), p, Lift(n, m), budget, consumed)
      == if r.Panic? then Panic else Fine((Lift(n, r.value.0), r.value.1))
    decreases budget
  {
    hide ScalarBackend, SimdBackend, Splat, LiftCpu, Turn1;
    if budget > 0 {
      Turn1Sim(n, p, m, budget);
      var r := Turn1(ScalarBackend(), p, m, budget);
      if r.Fine? {
        TurnAdvances(ScalarBackend(), p, m, budget);
        var delta := r.value.cycles - m.cycles;
        if !p.frameReady(r.value.dev) {
          StepSim(n, p, r.value, if budget > delta then budget - delta else 0, consumed + delta);
        }
      }
    }
  }

  /** Steps of any budgets, one after another. */
  function Runs<V, W, M, B, D>(k: Backend<V, W, M, B>, p: Device<D>, m: Machine<V, W, M, B, D>, budgets: seq<nat>)
    : Outcome<Machine<V, W, M, B, D>>
    decreases |budgets|
  {
    if budgets == [] then Fine(m)
    else
      match StepLoop(k, p, m, budgets[0], 0)
      case Panic => Panic
      case Fine((m', _)) => Runs(k, p, m', budgets[1..])
  }

  lemma {:induction false} RunsSim<D>(n: nat, p: Device<D>, m: Scalar<D>, budgets: seq<nat>)
    requires n > 0
    ensures var r := Runs(ScalarBackend(), p, m, budgets);
      Runs(SimdBackend(n), p, Lift(n, m), budgets) == if r.Panic? then Panic else Fine(Lift(n, r.value))
    decreases |budgets|
  {
    hide ScalarBackend, SimdBackend, Splat, Lift, StepLoop;
    if budgets != [] {
      StepSim(n, p, m, budgets[0], 0);
      var r := StepLoop(ScalarBackend(), p, m, budgets[0], 0);
      if r.Fine? { RunsSim(n, p, r.value.0, budgets[1..]); }
    }
  }

  /** What one lane of a SIMD machine shows. */
  ghost predicate LaneShows<D>(s: Machine<seq<bv8>, seq<Word>, seq<bool>, seq<Bus>, D>, i: nat, m: Scalar<D>) {
    && i < |s.bus| && s.bus[i] == m.bus && s.dev == m.dev && s.cycles == m.cycles
    && i < |s.cpu.a| && s.cpu.a[i] == m.cpu.a && i < |s.cpu.b| && s.cpu.b[i] == m.cpu.b
    && i < |s.cpu.c| && s.cpu.c[i] == m.cpu.c && i < |s.cpu.d| && s.cpu.d[i] == m.cpu.d
    && i < |s.cpu.e| && s.cpu.e[i] == m.cpu.e && i < |s.cpu.h| && s.cpu.h[i] == m.cpu.h
    && i < |s.cpu.l| && s.cpu.l[i] == m.cpu.l
    && i < |s.cpu.sp| && s.cpu.sp[i] == m.cpu.sp && i < |s.cpu.pc| && s.cpu.pc[i] == m.cpu.pc
    && i < |s.cpu.fz| && s.cpu.fz[i] == m.cpu.fz && i < |s.cpu.fn| && s.cpu.fn[i] == m.cpu.fn
    && i < |s.cpu.fh| && s.cpu.fh[i] == m.cpu.fh && i < |s.cpu.fc| && s.cpu.fc[i] == m.cpu.fc
    && s.cpu.ime == m.cpu.ime && s.cpu.halted == m.cpu.halted
  }

  lemma LiftShows<D>(n: nat, m: Scalar<D>, i: nat)
    requires i < n
    ensures LaneShows(Lift(n, m), i, m)
  {
  }

  /** The SIMD core simulates the scalar core lane for lane: started with equal lanes, after any
      number of steps of any budgets, with any peripherals, it panics exactly when the scalar core
      does, and otherwise every lane shows the scalar core's registers, flags, memory and time. */
  lemma LanesSimulate<D>(n: nat, p: Device<D>, m: Scalar<D>, budgets: seq<nat>, i: nat)
    requires i < n
    ensures var scalar, simd := Runs(ScalarBackend(), p, m, budgets), Runs(SimdBackend(n), p, Lift(n, m), budgets);
      simd.Fine? == scalar.Fine? && (scalar.Fine? ==> LaneShows(simd.value, i, scalar.value))
  {
    hide ScalarBackend, SimdBackend, Lift, Runs, LaneShows;
    RunsSim(n, p, m, budgets);
    var r := Runs(ScalarBackend(), p, m, budgets);
    if r.Fine? { LiftShows(n, r.value, i); }
  }

  // ----- From power-on -----

  /** The core as constructed: the register values of the source, over a bus and its peripherals. */
  function PowerOn<V, W, M, B, D>(k: Backend<V, W, M, B>, bus: B, dev: D): Machine<V, W, M, B, D> {
    Machine(
      Cpu(k.fromU8(0x01), k.fromU8(0x00), k.fromU8(0x13), k.fromU8(0x00), k.fromU8(0xD8),
          k.fromU8(0x01), k.fromU8(0x4D), k.fromU8(0x00), k.fromU8(0x00),
          k.fromU16(0xFFFE), k.fromU16(0x0100), k.fromU16(0), k.fromU16(0),
          k.mask(true), k.mask(false), k.mask(true), k.mask(true), false, false, false, false),
      bus, dev, 0, 0)
  }

  lemma PowerOnLifts<D>(n: nat, bus: Bus, dev: D)
    requires n > 0
    ensures PowerOn(SimdBackend(n), Splat(n, bus), dev) == Lift(n, PowerOn(ScalarBackend(), bus, dev))
  {
    hide Splat;
  }

  /** A SIMD core constructed from a ROM, one scalar bus per lane, is the scalar core constructed
      from that ROM in every lane, for ever. */
  lemma LanesFollowScalarRom<D>(
    n: nat, p: Device<D>, rom: seq<bv8>, boot: Option<seq<bv8>>, dev: D, budgets: seq<nat>, i: nat)
    requires i < n
    ensures var bus: Bus := Fresh(rom, boot);
      var scalar := Runs(ScalarBackend(), p, PowerOn(ScalarBackend(), bus, dev), budgets);
      var simd := Runs(SimdBackend(n), p, PowerOn(SimdBackend(n), Splat(n, bus), dev), budgets);
      simd.Fine? == scalar.Fine? && (scalar.Fine? ==> LaneShows(simd.value, i, scalar.value))
  {
    hide ScalarBackend, SimdBackend, Splat, Lift, Runs, LaneShows, PowerOn, Fresh;
    var bus: Bus := Fresh(rom, boot);
    PowerOnLifts(n, bus, dev);
    LanesSimulate(n, p, PowerOn(ScalarBackend(), bus, dev), budgets, i);
  }

  /** With interrupts on, dispatch fails exactly when an unused bit of the enable register is set
      and none of the five lines is both enabled and raised. */
  lemma DispatchTotalIff<D>(p: Device<D>, m: Scalar<D>)
    requires FlagsHigh(m.bus) && m.cpu.ime
    ensures ServiceInterrupts(ScalarBackend(), p, m).Panic?
       <==> m.bus.ie & 0xE0 != 0 && m.bus.ie & m.bus.io[IF] & 0x1F == 0
  {
    hide ServiceInterrupts, FlagsHigh, ScalarBackend, Pending;
    DispatchPanicsIff(ScalarBackend(), p, m);
    PendingIs(m.bus);
    FlagBitsHigh(m.bus);
    EnableBits(m.bus.ie, m.bus.io[IF]);
  }

  lemma FlagBitsHigh(m: Bus)
    requires FlagsHigh(m)
    ensures m.io[IF] & 0xE0 == 0xE0
  {
  }

  lemma PendingIs(m: Bus)
    ensures Pending(ScalarBackend(), m) == m.ie & m.io[IF]
  {
  }

  lemma EnableBits(ie: bv8, flags: bv8)
    requires flags & 0xE0 == 0xE0
    ensures ie & flags != 0 && (ie & flags) & 0x1F == 0 <==> ie & 0xE0 != 0 && ie & flags & 0x1F == 0
  {
  }
}
