/**
 What instructions do end to end: register moves, relative jumps, and the cost of every conditional
 instruction by the flags it found.
 */
module Behaviour {
  import opened Core
  import opened Instructions
  import opened CoreLoop
  import opened Lanes
  import opened Lockstep
  import opened Stack
  import Manual
  import ManualRuns

  /** LD r, r' between registers copies the one into the other and touches nothing else. */
  lemma RegisterMoves<D>(p: Device<D>, m: Scalar<D>, dst: Code, src: Code)
    requires dst != 6 && src != 6
    ensures var (r, cost) := Run(ScalarBackend(), p, m, Body(0x40 + 8 * dst + src));
      && cost == 4 && r == m.(cpu := r.cpu)
      && r.cpu == Set8(m.cpu.(x := Get8(m.cpu, Reg(src))), Reg(dst), Get8(m.cpu, Reg(src)))
  {
    hide Run, Exec, ScalarBackend, Set8, Get8, Low, High, Slack, Priced, Reg;
    MoveBody(dst, src);
    var v := Get8(m.cpu, Reg(src));
    var m1 := m.(cpu := m.cpu.(x := v));
    CopyByteRuns(p, m, Rx, Reg(src));
    SetScratch(m.cpu, v);
    CopyByteRuns(p, m1, Reg(dst), Rx);
    RunDo(p, m, Copy8(Rx, Reg(src)), Do(Copy8(Reg(dst), Rx), Done(4)));
    RunDo(p, m1, Copy8(Reg(dst), Rx), Done(4));
    RunDone(p, m1.(cpu := Set8(m1.cpu, Reg(dst), v)), 4);
  }

  lemma MoveBody(dst: Code, src: Code)
    requires dst != 6 && src != 6
    ensures Body(0x40 + 8 * dst + src) == Do(Copy8(Rx, Reg(src)), Do(Copy8(Reg(dst), Rx), Done(4)))
  {
    hide Low, High, Slack, Priced, Reg;
    var op := 0x40 + 8 * dst + src;
    assert op / 8 % 8 == dst && op % 8 == src;
  }

  lemma SetScratch<V, W, M>(c: Cpu<V, W, M>, v: V)
    ensures Set8(c, Rx, v) == c.(x := v) && Get8(c.(x := v), Rx) == v
  {
  }

  lemma CopyByteRuns<D>(p: Device<D>, m: Scalar<D>, dst: R8, src: R8)
    ensures Exec(ScalarBackend(), p, m, Copy8(dst, src)) == m.(cpu := Set8(m.cpu, dst, Get8(m.cpu, src)))
  {
    hide Set8, Get8;
  }

  lemma RunDone<D>(p: Device<D>, m: Scalar<D>, cost: nat)
    ensures Run(ScalarBackend(), p, m, Done(cost)) == (m, cost)
  {
    hide ScalarBackend;
  }

  lemma RunIf<D>(p: Device<D>, m: Scalar<D>, cc: nat, taken: Prog, other: Prog)
    ensures Run(ScalarBackend(), p, m, If(cc, taken, other))
         == Run(ScalarBackend(), p, m, if Condition(Flags(ScalarBackend(), m.cpu), cc) then taken else other)
  {
    hide ScalarBackend, Condition, Flags, Exec;
  }

  /** The flags as a conditional opcode finds them. */
  lemma ConditionIs<D>(m: Scalar<D>, op: Opcode)
    requires Conditional(op)
    ensures Condition(Flags(ScalarBackend(), m.cpu), op / 8 % 4)
         == Manual.Taken(FlagBits(m.cpu.fz, m.cpu.fn, m.cpu.fh, m.cpu.fc), op)
  {
    hide Condition, Manual.Taken;
    ManualRuns.ConditionIs(Flags(ScalarBackend(), m.cpu), op);
  }

  /** JR cc fetches its offset either way; taken, it moves on from the next instruction by the signed
      offset and costs 12, otherwise it costs 8. */
  lemma RelativeJump<D>(p: Device<D>, m: Scalar<D>, op: Opcode)
    requires op == 0x20 || op == 0x28 || op == 0x30 || op == 0x38
    ensures var fetched := Exec(ScalarBackend(), p, m, FetchImm(Rx));
      Run(ScalarBackend(), p, m, Body(op))
      == if Manual.Taken(FlagBits(m.cpu.fz, m.cpu.fn, m.cpu.fh, m.cpu.fc), op)
         then (fetched.(cpu := fetched.cpu.(pc := WordAdd(fetched.cpu.pc, Signed(fetched.cpu.x)))), 12)
         else (fetched, 8)
  {
    hide Run, Exec, ScalarBackend, Condition, Manual.Taken, Flags, Signed, Slack, Priced, Charge;
    FetchKeepsFlags(p, m, FetchImm(Rx));
    ConditionIs(m, op);
    var taken := Do(AddSigned(Wpc, Wpc, Rx, false), Done(12));
    var fetched := Exec(ScalarBackend(), p, m, FetchImm(Rx));
    JumpBody(op);
    RunDo(p, m, FetchImm(Rx), If(op / 8 % 4, taken, Done(8)));
    RunIf(p, fetched, op / 8 % 4, taken, Done(8));
    RunDone(p, fetched, 8);
    RunDo(p, fetched, AddSigned(Wpc, Wpc, Rx, false), Done(12));
    JumpRuns(p, fetched);
    RunDone(p, fetched.(cpu := fetched.cpu.(pc := WordAdd(fetched.cpu.pc, Signed(fetched.cpu.x)))), 12);
  }

  lemma JumpBody(op: Opcode)
    requires op == 0x20 || op == 0x28 || op == 0x30 || op == 0x38
    ensures Body(op) == Do(FetchImm(Rx), If(op / 8 % 4, Do(AddSigned(Wpc, Wpc, Rx, false), Done(12)), Done(8)))
  {
    hide Low1, Low2, Low3, Low6, Step8, High, Slack, Priced;
  }

  lemma JumpRuns<D>(p: Device<D>, m: Scalar<D>)
    ensures Exec(ScalarBackend(), p, m, AddSigned(Wpc, Wpc, Rx, false))
         == m.(cpu := m.cpu.(pc := WordAdd(m.cpu.pc, Signed(m.cpu.x))))
  {
    hide Signed;
  }

  // ----- The cost of conditional instructions -----

  /** Nothing the instruction does before its branch touches the flags. */
  lemma FetchKeepsFlags<D>(p: Device<D>, m: Scalar<D>, op: Op)
    requires op.FetchImm? || op.Join?
    ensures Flags(ScalarBackend(), Exec(ScalarBackend(), p, m, op).cpu) == Flags(ScalarBackend(), m.cpu)
  {
    hide ScalarBackend, Charge, Set8, Set16, Get8, Get16, Fetch;
    if op.FetchImm? {
      FetchSetsNoFlag(m, op.dst);
    } else {
      var w := ScalarBackend().combine(Get8(m.cpu, op.hi), Get8(m.cpu, op.lo));
      SettingWordKeepsFlags(m.cpu, op.wdst, w);
    }
  }

  lemma SettingKeepsFlags<V, W, M>(c: Cpu<V, W, M>, r: R8, v: V)
    ensures var d := Set8(c, r, v); d.fz == c.fz && d.fn == c.fn && d.fh == c.fh && d.fc == c.fc
  {
  }

  lemma SettingWordKeepsFlags<V, W, M>(c: Cpu<V, W, M>, r: R16, w: W)
    ensures var d := Set16(c, r, w); d.fz == c.fz && d.fn == c.fn && d.fh == c.fh && d.fc == c.fc
  {
  }

  lemma FetchSetsNoFlag<D>(m: Scalar<D>, dst: R8)
    ensures Flags(ScalarBackend(), Fetch(ScalarBackend(), m, dst).cpu) == Flags(ScalarBackend(), m.cpu)
  {
    hide ScalarBackend, Set8;
    var k := ScalarBackend();
    var next := k.fromU16(WordAdd(k.toU16(m.cpu.pc), 1));
    var pc := if m.cpu.haltBug then k.fromU16(WordAdd(k.toU16(next), 0xFFFF)) else next;
    SettingKeepsFlags(m.cpu.(pc := pc, haltBug := false), dst, k.read(m.bus, m.cpu.pc));
  }

  /** The costs a conditional opcode declares, taken and not. */
  function BranchCosts(op: Opcode): (nat, nat) {
    if op < 0x40 then (12, 8)
    else if op % 8 == 0 then (20, 8)
    else if op % 8 == 2 then (16, 12)
    else (24, 12)
  }

  predicate Conditional(op: Opcode) {
    op in {0x20, 0x28, 0x30, 0x38} || (0xC0 <= op < 0xE0 && op % 8 in {0, 2, 4})
  }

  /** JR, RET, JP and CALL on a condition cost what the zero and carry flags before them say. */
  lemma ConditionalCost<D>(p: Device<D>, m: Scalar<D>, op: Opcode)
    requires Conditional(op)
    ensures Run(ScalarBackend(), p, m, Body(op)).1
         == if Manual.Taken(FlagBits(m.cpu.fz, m.cpu.fn, m.cpu.fh, m.cpu.fc), op) then BranchCosts(op).0
            else BranchCosts(op).1
  {
    hide Run, Exec, ScalarBackend, Condition, Manual.Taken, Flags, Slack, Priced, Low, High, Body;
    var cc := op / 8 % 4;
    var (yes, no) := BranchCosts(op);
    ConditionIs(m, op);
    if op < 0x40 {
      RelativeJump(p, m, op);
    } else if op % 8 == 0 {
      var taken := Pop(Then(Copy16(Wpc, Wv), End(20)));
      ReturnBody(op);
      BranchCost(p, m, cc, taken, End(8), 20, 8);
    } else if op % 8 == 2 {
      var taken := Then(Copy16(Wpc, Wv), End(16));
      JumpFarBody(op);
      FlatJump();
      Fetch16Branch(p, m, cc, taken, End(12), 16, 12);
    } else {
      var taken := CallTo(Then(Copy16(Wpc, Wv), End(24)));
      CallBody(op);
      FlatCall();
      Fetch16Branch(p, m, cc, taken, End(12), 24, 12);
    }
  }

  lemma ReturnBody(op: Opcode)
    requires 0xC0 <= op < 0xE0 && op % 8 == 0
    ensures Body(op) == If(op / 8 % 4, Pop(Then(Copy16(Wpc, Wv), End(20))), End(8))
    ensures OneCost(Pop(Then(Copy16(Wpc, Wv), End(20))), 20) && OneCost(End(8), 8)
  {
    hide Slack, Priced, Low, High1, High2, High3, High4, High5, Pop, OneCost;
    FlatReturn();
    EndIsFlat(8);
  }

  lemma FlatReturn()
    ensures OneCost(Pop(Then(Copy16(Wpc, Wv), End(20))), 20)
  {
    hide Slack, Priced, OneCost, Then, End;
    EndIsFlat(20);
    ThenIsFlat(Copy16(Wpc, Wv), End(20), 20);
    PopIsFlat(Then(Copy16(Wpc, Wv), End(20)), 20);
  }

  lemma PopIsFlat(next: Prog, c: nat)
    requires OneCost(next, c)
    ensures OneCost(Pop(next), c)
  {
    hide Slack, Priced, OneCost, Then;
    var p5 := Then(Join(Wv, Ry, Rx), next);
    var p4 := Then(Offset(Wsp, Wu, 1), p5);
    var p3 := Then(BareLoad(Ry, Wu), p4);
    var p2 := Then(Offset(Wu, Wu, 1), p3);
    var p1 := Then(BareLoad(Rx, Wu), p2);
    ThenIsFlat(Join(Wv, Ry, Rx), next, c);
    ThenIsFlat(Offset(Wsp, Wu, 1), p5, c);
    ThenIsFlat(BareLoad(Ry, Wu), p4, c);
    ThenIsFlat(Offset(Wu, Wu, 1), p3, c);
    ThenIsFlat(BareLoad(Rx, Wu), p2, c);
    ThenIsFlat(Offset(Wu, Wsp, 0), p1, c);
  }

  lemma JumpFarBody(op: Opcode)
    requires 0xC0 <= op < 0xE0 && op % 8 == 2
    ensures Body(op) == Fetch16(If(op / 8 % 4, Then(Copy16(Wpc, Wv), End(16)), End(12)))
  {
    hide Slack, Priced, Low, High0, High1, High3, High4, High5, Fetch16;
  }

  lemma CallBody(op: Opcode)
    requires 0xC0 <= op < 0xE0 && op % 8 == 4
    ensures Body(op) == Fetch16(If(op / 8 % 4, CallTo(Then(Copy16(Wpc, Wv), End(24))), End(12)))
  {
    hide Slack, Priced, Low, High0, High1, High2, High3, High5, Fetch16, CallTo;
  }

  lemma FlatJump()
    ensures OneCost(Then(Copy16(Wpc, Wv), End(16)), 16) && OneCost(End(12), 12)
  {
    hide Slack, Priced, OneCost, Then, End;
    EndIsFlat(16);
    EndIsFlat(12);
    ThenIsFlat(Copy16(Wpc, Wv), End(16), 16);
  }

  lemma FlatCall()
    ensures OneCost(CallTo(Then(Copy16(Wpc, Wv), End(24))), 24) && OneCost(End(12), 12)
  {
    hide Slack, Priced, OneCost, Then, End, Push;
    EndIsFlat(24);
    EndIsFlat(12);
    ThenIsFlat(Copy16(Wpc, Wv), End(24), 24);
    PushIsFlat(Then(Copy16(Wpc, Wv), End(24)), 24);
    ThenIsFlat(Part(Rx, Ry, Wpc), Push(Then(Copy16(Wpc, Wv), End(24))), 24);
  }

  lemma BranchCost<D>(p: Device<D>, m: Scalar<D>, cc: nat, taken: Prog, other: Prog, yes: nat, no: nat)
    requires OneCost(taken, yes) && OneCost(other, no)
    ensures Run(ScalarBackend(), p, m, If(cc, taken, other)).1
         == if Condition(Flags(ScalarBackend(), m.cpu), cc) then yes else no
  {
    hide Run, ScalarBackend, Condition, Flags, OneCost;
    RunIf(p, m, cc, taken, other);
    OneCostRuns(ScalarBackend(), p, m, taken, yes);
    OneCostRuns(ScalarBackend(), p, m, other, no);
  }

  lemma Fetch16Branch<D>(p: Device<D>, m: Scalar<D>, cc: nat, taken: Prog, other: Prog, yes: nat, no: nat)
    requires OneCost(taken, yes) && OneCost(other, no)
    ensures Run(ScalarBackend(), p, m, Fetch16(If(cc, taken, other))).1
         == if Condition(Flags(ScalarBackend(), m.cpu), cc) then yes else no
  {
    hide Run, Exec, ScalarBackend, Condition, Flags, OneCost, Slack, Priced;
    var k := ScalarBackend();
    var m1 := Exec(k, p, m, FetchImm(Rx));
    var m2 := Exec(k, p, m1, FetchImm(Ry));
    var branch := If(cc, taken, other);
    RunDo(p, m, FetchImm(Rx), Do(FetchImm(Ry), Do(Join(Wv, Ry, Rx), branch)));
    RunDo(p, m1, FetchImm(Ry), Do(Join(Wv, Ry, Rx), branch));
    RunDo(p, m2, Join(Wv, Ry, Rx), branch);
    FetchKeepsFlags(p, m, FetchImm(Rx));
    FetchKeepsFlags(p, m1, FetchImm(Ry));
    FetchKeepsFlags(p, m2, Join(Wv, Ry, Rx));
    BranchCost(p, Exec(k, p, m2, Join(Wv, Ry, Rx)), cc, taken, other, yes, no);
  }
}
