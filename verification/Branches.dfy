/**
 The conditional branches, flag by flag: JR, JP, CALL and RET on NZ, Z, NC and C take the time, the
 program counter and the stack that go with the zero or the carry flag the instruction found.
 */
module Branches {
  import opened MemoryBus
  import opened Core
  import opened Instructions
  import opened Lanes
  import opened Lockstep
  import opened Manual
  import opened ManualSteps
  import opened ManualAgrees
  import opened ManualLoop

  /** The run of a body, as the manual describes its opcode. */
  lemma ByTheManual<D>(p: Device<D>, m: Scalar<D>, op: Opcode)
    ensures var (r, cost) := Run(ScalarBackend(), p, m, Body(op));
      && (Shown(r), cost) == Instruction(p, Shown(m), op)
      && r.bus == Shown(r).o.bus && r.cpu.pc == Shown(r).r.pc && r.cpu.sp == Shown(r).r.sp
    ensures Shown(m).r.f == FlagBits(m.cpu.fz, m.cpu.fn, m.cpu.fh, m.cpu.fc)
    ensures Shown(m).r.pc == m.cpu.pc && Shown(m).r.sp == m.cpu.sp && Shown(m).r.haltBug == m.cpu.haltBug
    ensures Shown(m).o.bus == m.bus
  {
    hide Run, ScalarBackend, Body, Instruction, Effect;
    RunsEffect(p, m, Body(op));
    EveryOpcode(p, m.cpu, Around(m), op);
  }

  lemma TakenByFlag(f: FlagBits, op: Opcode)
    ensures op in {0x20, 0xC0, 0xC2, 0xC4} ==> Taken(f, op) == !f.z
    ensures op in {0x28, 0xC8, 0xCA, 0xCC} ==> Taken(f, op) == f.z
    ensures op in {0x30, 0xD0, 0xD2, 0xD4} ==> Taken(f, op) == !f.c
    ensures op in {0x38, 0xD8, 0xDA, 0xDC} ==> Taken(f, op) == f.c
  {
  }

  /** JR: 0x20 goes on Z clear, 0x28 on Z set, 0x30 on C clear and 0x38 on C set. */
  lemma JumpsRelative<D>(p: Device<D>, m: Scalar<D>, op: Opcode)
    requires op in {0x20, 0x28, 0x30, 0x38}
    ensures var (r, cost) := Run(ScalarBackend(), p, m, Body(op));
      var taken := if op == 0x20 then !m.cpu.fz else if op == 0x28 then m.cpu.fz
                   else if op == 0x30 then !m.cpu.fc else m.cpu.fc;
      var offset := ReadByte(m.bus, m.cpu.pc) as int;
      var next := if m.cpu.haltBug then m.cpu.pc else (m.cpu.pc + 1) % 0x1_0000;
      && cost == (if taken then 12 else 8) && r.cpu.sp == m.cpu.sp
      && r.cpu.pc == (if taken then (next + (if offset < 0x80 then offset else offset - 0x100)) % 0x1_0000 else next)
  {
    hide Run, ScalarBackend, Body, Shown, ReadByte, Jr, Taken, Instruction;
    ByTheManual(p, m, op);
    RelativeOpcode(p, Shown(m), op);
    TakenByFlag(Shown(m).r.f, op);
    RelativeMoves(p, Shown(m), op);
  }

  lemma RelativeMoves<D>(p: Device<D>, s: State<D>, op: Opcode)
    requires op in {0x20, 0x28, 0x30, 0x38}
    ensures var (r, cost) := Jr(p, s, op);
      var offset := ReadByte(s.o.bus, s.r.pc) as int;
      var next := if s.r.haltBug then s.r.pc else (s.r.pc + 1) % 0x1_0000;
      && cost == (if Taken(s.r.f, op) then 12 else 8) && r.r.sp == s.r.sp
      && r.r.pc == if Taken(s.r.f, op) then (next + (if offset < 0x80 then offset else offset - 0x100)) % 0x1_0000
                   else next
  {
    hide ReadByte, Spend, Taken;
  }

  lemma RelativeOpcode<D>(p: Device<D>, s: State<D>, op: Opcode)
    requires op in {0x20, 0x28, 0x30, 0x38}
    ensures Instruction(p, s, op) == Jr(p, s, op)
  {
    hide Jr, Column1, Column2, Column3, Column45, Column6, AccumulatorOp, HaltOp, Transfer8, Arithmetic8, LastQuarter;
  }

  /** RET: 0xC0, 0xC8, 0xD0 and 0xD8. Taken, PC comes off the stack. */
  lemma Returns<D>(p: Device<D>, m: Scalar<D>, op: Opcode)
    requires op in {0xC0, 0xC8, 0xD0, 0xD8}
    ensures var (r, cost) := Run(ScalarBackend(), p, m, Body(op));
      var taken := if op == 0xC0 then !m.cpu.fz else if op == 0xC8 then m.cpu.fz
                   else if op == 0xD0 then !m.cpu.fc else m.cpu.fc;
      var sp := m.cpu.sp;
      && cost == (if taken then 20 else 8) && r.bus == m.bus
      && r.cpu.sp == (if taken then (sp + 2) % 0x1_0000 else sp)
      && r.cpu.pc == if taken then ReadByte(m.bus, (sp + 1) % 0x1_0000) as nat * 0x100 + ReadByte(m.bus, sp) as nat
                     else m.cpu.pc
  {
    hide Run, ScalarBackend, Body, Shown, ReadByte, Ret, Taken, Instruction;
    ByTheManual(p, m, op);
    ReturnOpcode(p, Shown(m), op);
    TakenByFlag(Shown(m).r.f, op);
    ReturnMoves(Shown(m), op);
  }

  lemma ReturnMoves<D>(s: State<D>, op: Opcode)
    requires op in {0xC0, 0xC8, 0xD0, 0xD8}
    ensures var (r, cost) := Ret(s, op);
      var sp, taken := s.r.sp, Taken(s.r.f, op);
      && cost == (if taken then 20 else 8) && r.o.bus == s.o.bus
      && r.r.sp == (if taken then (sp + 2) % 0x1_0000 else sp)
      && r.r.pc == if taken then ReadByte(s.o.bus, (sp + 1) % 0x1_0000) as nat * 0x100 + ReadByte(s.o.bus, sp) as nat
                   else s.r.pc
  {
    hide ReadByte, Taken;
  }

  lemma ReturnOpcode<D>(p: Device<D>, s: State<D>, op: Opcode)
    requires op in {0xC0, 0xC8, 0xD0, 0xD8}
    ensures Instruction(p, s, op) == Ret(s, op)
  {
    hide Ret, HighColumn1, HighColumn2, HighColumn3, HighColumn4, HighColumn5;
    hide FirstQuarter, HaltOp, Transfer8, Arithmetic8, Rst, Accumulate, FetchByte;
  }

  /** JP: 0xC2, 0xCA, 0xD2 and 0xDA. The target is fetched either way. */
  lemma JumpsFar<D>(p: Device<D>, m: Scalar<D>, op: Opcode)
    requires op in {0xC2, 0xCA, 0xD2, 0xDA}
    ensures var (r, cost) := Run(ScalarBackend(), p, m, Body(op));
      var taken := if op == 0xC2 then !m.cpu.fz else if op == 0xCA then m.cpu.fz
                   else if op == 0xD2 then !m.cpu.fc else m.cpu.fc;
      var (target, fetched) := FetchWord(p, Shown(m));
      && cost == (if taken then 16 else 12) && r.bus == fetched.o.bus && r.cpu.sp == m.cpu.sp
      && r.cpu.pc == if taken then target else fetched.r.pc
  {
    hide Run, ScalarBackend, Body, Shown, FetchWord, Taken, Instruction;
    ByTheManual(p, m, op);
    FarOpcode(p, Shown(m), op);
    TakenByFlag(Shown(m).r.f, op);
    FetchKeepsStack(p, Shown(m));
  }

  lemma FarOpcode<D>(p: Device<D>, s: State<D>, op: Opcode)
    requires op in {0xC2, 0xCA, 0xD2, 0xDA}
    ensures Instruction(p, s, op) == Jp(p, s, op)
  {
    hide Jp, HighColumn0, HighColumn1, HighColumn3, HighColumn4, HighColumn5;
    hide FirstQuarter, HaltOp, Transfer8, Arithmetic8, Rst, Accumulate, FetchByte;
  }

  lemma FetchKeepsStack<D>(p: Device<D>, s: State<D>)
    ensures FetchWord(p, s).1.r.sp == s.r.sp
  {
    hide ReadByte, Spend;
  }

  /** CALL: 0xC4, 0xCC, 0xD4 and 0xDC. Taken, the address after the target goes onto the stack, high byte
      first. */
  lemma Calls<D>(p: Device<D>, m: Scalar<D>, op: Opcode)
    requires op in {0xC4, 0xCC, 0xD4, 0xDC}
    ensures var (r, cost) := Run(ScalarBackend(), p, m, Body(op));
      var taken := if op == 0xC4 then !m.cpu.fz else if op == 0xCC then m.cpu.fz
                   else if op == 0xD4 then !m.cpu.fc else m.cpu.fc;
      var (target, fetched) := FetchWord(p, Shown(m));
      var back, bus := fetched.r.pc, fetched.o.bus;
      var first, second := (m.cpu.sp - 1) % 0x1_0000, (m.cpu.sp - 2) % 0x1_0000;
      && cost == (if taken then 24 else 12)
      && r.cpu.pc == (if taken then target else back) && r.cpu.sp == (if taken then second else m.cpu.sp)
      && r.bus == if taken then WriteByte(WriteByte(bus, first, (back / 0x100) as bv8), second, (back % 0x100) as bv8)
                  else bus
  {
    hide Run, ScalarBackend, Body, Shown, FetchWord, WriteByte, CallOp, Taken, Instruction;
    ByTheManual(p, m, op);
    CallOpcode(p, Shown(m), op);
    TakenByFlag(Shown(m).r.f, op);
    CallMoves(p, Shown(m), op);
  }

  lemma CallMoves<D>(p: Device<D>, s: State<D>, op: Opcode)
    requires op in {0xC4, 0xCC, 0xD4, 0xDC}
    ensures var (r, cost) := CallOp(p, s, op);
      var (target, fetched) := FetchWord(p, s);
      var back, bus, taken := fetched.r.pc, fetched.o.bus, Taken(s.r.f, op);
      var first, second := (s.r.sp - 1) % 0x1_0000, (s.r.sp - 2) % 0x1_0000;
      && cost == (if taken then 24 else 12)
      && r.r.pc == (if taken then target else back) && r.r.sp == (if taken then second else s.r.sp)
      && r.o.bus == if taken then WriteByte(WriteByte(bus, first, (back / 0x100) as bv8), second, (back % 0x100) as bv8)
                    else bus
  {
    hide FetchWord, WriteByte, Taken;
    FetchKeepsStack(p, s);
  }

  lemma CallOpcode<D>(p: Device<D>, s: State<D>, op: Opcode)
    requires op in {0xC4, 0xCC, 0xD4, 0xDC}
    ensures Instruction(p, s, op) == CallOp(p, s, op)
  {
    hide CallOp, HighColumn0, HighColumn1, HighColumn2, HighColumn3, HighColumn5;
    hide FirstQuarter, HaltOp, Transfer8, Arithmetic8, Rst, Accumulate, FetchByte;
  }
}
