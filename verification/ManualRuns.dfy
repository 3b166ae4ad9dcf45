/**
 Every opcode does what the manual says: the instruction bodies, built of micro-operations over scratch
 registers, refine the manual's account of registers, flags, memory, time and branches.
 */
module ManualRuns {
  import opened MemoryBus
  import opened Core
  import opened Instructions
  import opened Lanes
  import opened Manual
  import opened ManualSteps

  // ----- Sequences the bodies share -----

  lemma FetchByteGoes<D>(p: Device<D>, c: Registers, o: Outside<D>, next: Prog) returns (c': Registers)
    ensures var (v, s1) := FetchByte(p, State(Seen(c), o));
      Effect(p, c, o, Then(FetchImm(Rx), next)) == Effect(p, c', s1.o, next) && Seen(c') == s1.r && c'.x == v
  {
    hide Effect, Then, Slack, Priced, ReadByte, Spend, Moved;
    FetchGoes(p, c, o, Rx, next);
    c' := AfterFetch(c, Rx, ReadByte(o.bus, c.pc));
  }

  lemma FetchWordGoes<D>(p: Device<D>, c: Registers, o: Outside<D>, next: Prog) returns (c': Registers)
    ensures var (w, s1) := FetchWord(p, State(Seen(c), o));
      Effect(p, c, o, Fetch16(next)) == Effect(p, c', s1.o, next) && Seen(c') == s1.r && c'.v == w
  {
    hide Effect, Then, Slack, Priced, ReadByte, Spend, Moved, Joined, FetchByte;
    var join := Then(Join(Wv, Ry, Rx), next);
    var c1 := FetchByteGoes(p, c, o, Then(FetchImm(Ry), join));
    var o1 := FetchByte(p, State(Seen(c), o)).1.o;
    var c2 := SecondByteGoes(p, c1, o1, join);
    var o2 := FetchByte(p, State(Seen(c1), o1)).1.o;
    JoinGoes(p, c2, o2, Wv, Ry, Rx, next);
    c' := c2.(v := Joined(c2.y, c2.x));
  }

  lemma SecondByteGoes<D>(p: Device<D>, c: Registers, o: Outside<D>, next: Prog) returns (c': Registers)
    ensures var (v, s1) := FetchByte(p, State(Seen(c), o));
      && Effect(p, c, o, Then(FetchImm(Ry), next)) == Effect(p, c', s1.o, next)
      && Seen(c') == s1.r && c'.y == v && c'.x == c.x
  {
    hide Effect, Then, Slack, Priced, ReadByte, Spend, Moved;
    FetchGoes(p, c, o, Ry, next);
    c' := AfterFetch(c, Ry, ReadByte(o.bus, c.pc));
  }

  /** Register codes name the registers the manual says. */
  lemma SeenRegister(c: Registers, code: Code, v: bv8)
    requires code != 6
    ensures Get8(c, Reg(code)) == Register(Seen(c), code)
    ensures Seen(Set8(c, Reg(code), v)) == WithRegister(Seen(c), code, v)
  {
    hide Get8, Set8, Seen;
    SeenGet(c, code);
    SetLower(c, v);
    SetUpper(c, v);
  }

  lemma SeenGet(c: Registers, code: Code)
    requires code != 6
    ensures Get8(c, Reg(code)) == Register(Seen(c), code)
  {
  }

  lemma SetLower(c: Registers, v: bv8)
    ensures Seen(Set8(c, Rb, v)) == Seen(c).(b := v) && Seen(Set8(c, Rc, v)) == Seen(c).(c := v)
    ensures Seen(Set8(c, Rd, v)) == Seen(c).(d := v) && Seen(Set8(c, Re, v)) == Seen(c).(e := v)
  {
  }

  lemma SetUpper(c: Registers, v: bv8)
    ensures Seen(Set8(c, Rh, v)) == Seen(c).(h := v) && Seen(Set8(c, Rl, v)) == Seen(c).(l := v)
    ensures Seen(Set8(c, Ra, v)) == Seen(c).(a := v)
  {
  }

  /** An operand read into the scratch byte. */
  lemma ReadGoes<D>(p: Device<D>, c: Registers, o: Outside<D>, code: Code, next: Prog) returns (c': Registers)
    ensures var (v, s1) := Operand(p, State(Seen(c), o), code);
      Effect(p, c, o, ReadR8(code, next)) == Effect(p, c', s1.o, next) && Seen(c') == s1.r && c'.x == v
  {
    hide Effect, Then, Slack, Priced, ReadByte, Spend, Joined, Get8, Reg;
    if code == 6 {
      c' := PointGoes(p, c, o, Then(Load(Rx, Wu), next));
      LoadGoes(p, c', o, Rx, Wu, next);
      c' := c'.(x := ReadByte(o.bus, c'.u));
    } else {
      SeenRegister(c, code, 0);
      CopyGoes(p, c, o, Rx, Reg(code), next);
      c' := c.(x := Get8(c, Reg(code)));
    }
  }

  /** HL into scratch word U. */
  lemma PointGoes<D>(p: Device<D>, c: Registers, o: Outside<D>, next: Prog) returns (c': Registers)
    ensures Effect(p, c, o, Then(Join(Wu, Rh, Rl), next)) == Effect(p, c', o, next)
    ensures Seen(c') == Seen(c) && c'.u == Joined(c.h, c.l) && c'.x == c.x
  {
    hide Effect, Then, Slack, Priced, Joined;
    JoinGoes(p, c, o, Wu, Rh, Rl, next);
    c' := c.(u := Joined(c.h, c.l));
  }

  lemma WriteGoes<D>(p: Device<D>, c: Registers, o: Outside<D>, code: Code, next: Prog) returns (c': Registers)
    ensures var s1 := Result(p, State(Seen(c), o), code, c.x);
      Effect(p, c, o, WriteR8(code, next)) == Effect(p, c', s1.o, next) && Seen(c') == s1.r
  {
    hide Effect, Then, Slack, Priced, WriteByte, Spend, Joined, Set8, Reg;
    if code == 6 {
      c' := PointGoes(p, c, o, Then(Store(Wu, Rx), next));
      StoreGoes(p, c', o, Wu, Rx, next);
    } else {
      SeenRegister(c, code, c.x);
      CopyGoes(p, c, o, Reg(code), Rx, next);
      c' := Set8(c, Reg(code), c.x);
    }
  }

  lemma PushGoes<D>(p: Device<D>, c: Registers, o: Outside<D>, next: Prog) returns (c': Registers)
    ensures var s1 := PushWord(State(Seen(c), o), c.x, c.y);
      Effect(p, c, o, Push(next)) == Effect(p, c', s1.o, next) && Seen(c') == s1.r && c'.v == c.v
  {
    hide Effect, Then, Slack, Priced, WriteByte, WordAdd, Moved;
    var first, second := Moved(c.sp, -1), Moved(c.sp, -2);
    OneLess(c.sp);
    OneLess(first);
    var p4 := Then(Copy16(Wsp, Wu), next);
    var p3 := Then(BareStore(Wu, Ry), p4);
    var p2 := Then(Offset(Wu, Wu, 0xFFFF), p3);
    var p1 := Then(BareStore(Wu, Rx), p2);
    OffsetGoes(p, c, o, Wu, Wsp, 0xFFFF, p1);
    var c1 := c.(u := first);
    BareStoreGoes(p, c1, o, Wu, Rx, p2);
    var o1 := o.(bus := WriteByte(o.bus, first, c.x));
    OffsetGoes(p, c1, o1, Wu, Wu, 0xFFFF, p3);
    var c2 := c1.(u := second);
    BareStoreGoes(p, c2, o1, Wu, Ry, p4);
    var o2 := o1.(bus := WriteByte(o1.bus, second, c.y));
    CopyWordGoes(p, c2, o2, Wsp, Wu, next);
    c' := c2.(sp := second);
  }

  lemma PopGoes<D>(p: Device<D>, c: Registers, o: Outside<D>, next: Prog) returns (c': Registers)
    ensures var (hi, lo, s1) := PopWord(State(Seen(c), o));
      Effect(p, c, o, Pop(next)) == Effect(p, c', s1.o, next) && Seen(c') == s1.r && c'.v == Joined(hi, lo)
  {
    hide Effect, Then, Slack, Priced, ReadByte, WordAdd, Moved, Joined;
    var first, second := c.sp, Moved(c.sp, 1);
    OneLess(c.sp);
    OneLess(second);
    var p5 := Then(Join(Wv, Ry, Rx), next);
    var p4 := Then(Offset(Wsp, Wu, 1), p5);
    var p3 := Then(BareLoad(Ry, Wu), p4);
    var p2 := Then(Offset(Wu, Wu, 1), p3);
    var p1 := Then(BareLoad(Rx, Wu), p2);
    OffsetGoes(p, c, o, Wu, Wsp, 0, p1);
    var c1 := c.(u := first);
    BareLoadGoes(p, c1, o, Rx, Wu, p2);
    var c2 := c1.(x := ReadByte(o.bus, first));
    OffsetGoes(p, c2, o, Wu, Wu, 1, p3);
    var c3 := c2.(u := second);
    BareLoadGoes(p, c3, o, Ry, Wu, p4);
    var c4 := c3.(y := ReadByte(o.bus, second));
    OffsetGoes(p, c4, o, Wsp, Wu, 1, p5);
    var c5 := c4.(sp := Moved(c.sp, 2));
    JoinGoes(p, c5, o, Wv, Ry, Rx, next);
    c' := c5.(v := Joined(c5.y, c5.x));
  }

  lemma GetPairGoes<D>(p: Device<D>, c: Registers, o: Outside<D>, rp: nat, next: Prog) returns (c': Registers)
    ensures Effect(p, c, o, GetPair(rp, next)) == Effect(p, c', o, next)
    ensures Seen(c') == Seen(c) && c'.v == Pair(Seen(c), rp)
  {
    hide Effect, Then, Slack, Priced, Joined, Seen;
    if rp == 0 { JoinGoes(p, c, o, Wv, Rb, Rc, next); }
    else if rp == 1 { JoinGoes(p, c, o, Wv, Rd, Re, next); }
    else if rp == 2 { JoinGoes(p, c, o, Wv, Rh, Rl, next); }
    else { CopyWordGoes(p, c, o, Wv, Wsp, next); }
    SeenPair(c, rp);
    c' := c.(v := Pair(Seen(c), rp));
    SeenWord(c, c'.v);
  }

  lemma SeenPair(c: Registers, rp: nat)
    ensures Pair(Seen(c), rp) == if rp == 0 then Joined(c.b, c.c) else if rp == 1 then Joined(c.d, c.e)
                                 else if rp == 2 then Joined(c.h, c.l) else c.sp
  {
    hide Joined;
  }

  lemma SeenWord(c: Registers, w: Word)
    ensures Seen(c.(v := w)) == Seen(c)
  {
  }

  lemma SetPairGoes<D>(p: Device<D>, c: Registers, o: Outside<D>, rp: nat, next: Prog) returns (c': Registers)
    ensures Effect(p, c, o, SetPair(rp, next)) == Effect(p, c', o, next)
    ensures Seen(c') == WithPair(Seen(c), rp, c.v)
  {
    hide Effect, Then, Slack, Priced, Upper, Lower, Set8, Set16, Seen;
    var h, l := Upper(c.v), Lower(c.v);
    if rp == 0 {
      PartGoes(p, c, o, Rb, Rc, Wv, next);
      SetLower(c, h);
      SetLower(Set8(c, Rb, h), l);
      c' := Set8(Set8(c, Rb, h), Rc, l);
    } else if rp == 1 {
      PartGoes(p, c, o, Rd, Re, Wv, next);
      SetLower(c, h);
      SetLower(Set8(c, Rd, h), l);
      c' := Set8(Set8(c, Rd, h), Re, l);
    } else if rp == 2 {
      PartGoes(p, c, o, Rh, Rl, Wv, next);
      SetUpper(c, h);
      SetUpper(Set8(c, Rh, h), l);
      c' := Set8(Set8(c, Rh, h), Rl, l);
    } else {
      CopyWordGoes(p, c, o, Wsp, Wv, next);
      c' := Set16(c, Wsp, c.v);
      SetStack(c, c.v);
    }
  }

  lemma SetStack(c: Registers, w: Word)
    ensures Seen(Set16(c, Wsp, w)) == Seen(c).(sp := w)
  {
  }

  // ----- Branches -----

  /** The conditions the instruction set encodes in two bits. */
  lemma ConditionIs(f: FlagBits, op: Opcode)
    requires op in {0x20, 0x28, 0x30, 0x38} || (0xC0 <= op < 0xE0 && op % 8 in {0, 2, 4})
    ensures Condition(f, op / 8 % 4) == Taken(f, op)
  {
    assert op in {0x20, 0x28, 0x30, 0x38, 0xC0, 0xC8, 0xD0, 0xD8, 0xC2, 0xCA, 0xD2, 0xDA, 0xC4, 0xCC, 0xD4, 0xDC};
  }

  lemma JrAgrees<D>(p: Device<D>, c: Registers, o: Outside<D>, op: Opcode)
    requires op in {0x18, 0x20, 0x28, 0x30, 0x38}
    ensures Effect(p, c, o, Low0(op)) == Jr(p, State(Seen(c), o), op)
  {
    hide Effect, Then, End, Either, Slack, Priced, FetchByte, Moved, SignedByte, Condition, Taken;
    var jump := Then(AddSigned(Wpc, Wpc, Rx, false), End(12));
    var branch := if op == 0x18 then jump else Either(op / 8 % 4, jump, End(8));
    var c1 := FetchByteGoes(p, c, o, branch);
    var (v, s1) := FetchByte(p, State(Seen(c), o));
    JumpGoes(p, c1, s1.o, End(12));
    Ends(p, c1.(pc := Moved(c1.pc, SignedByte(v))), s1.o, 12);
    Ends(p, c1, s1.o, 8);
    if op != 0x18 {
      Branches(p, c1, s1.o, op / 8 % 4, jump, End(8));
      ConditionIs(Bits(c1), op);
      FetchKeepsFlags(p, State(Seen(c), o));
    }
  }

  lemma FetchKeepsFlags<D>(p: Device<D>, s: State<D>)
    ensures FetchByte(p, s).1.r.f == s.r.f && FetchWord(p, s).1.r.f == s.r.f
  {
    hide ReadByte, Spend, Moved;
  }

  lemma SetPcGoes<D>(p: Device<D>, c: Registers, o: Outside<D>, cost: nat)
    ensures Effect(p, c, o, Then(Copy16(Wpc, Wv), End(cost))) == (State(Seen(c).(pc := c.v), o), cost)
  {
    hide Effect, Then, End, Slack, Priced;
    CopyWordGoes(p, c, o, Wpc, Wv, End(cost));
    Ends(p, c.(pc := c.v), o, cost);
  }

  lemma JpAgrees<D>(p: Device<D>, c: Registers, o: Outside<D>, op: Opcode)
    requires op == 0xC3 || (0xC0 <= op < 0xE0 && op % 8 == 2)
    ensures Effect(p, c, o, if op == 0xC3 then High3(op) else High2(op)) == Jp(p, State(Seen(c), o), op)
  {
    hide Effect, Then, End, Either, Fetch16, Slack, Priced, FetchWord, Condition, Taken, Seen;
    var jump := Then(Copy16(Wpc, Wv), End(16));
    var branch := if op == 0xC3 then jump else Either(op / 8 % 4, jump, End(12));
    var c1 := FetchWordGoes(p, c, o, branch);
    var (w, s1) := FetchWord(p, State(Seen(c), o));
    SetPcGoes(p, c1, s1.o, 16);
    Ends(p, c1, s1.o, 12);
    if op != 0xC3 {
      Branches(p, c1, s1.o, op / 8 % 4, jump, End(12));
      ConditionIs(Bits(c1), op);
      FetchKeepsFlags(p, State(Seen(c), o));
      SeenFlags(c1);
      SeenFlags(c);
    }
  }

  lemma SeenFlags(c: Registers)
    ensures Seen(c).f == Bits(c)
  {
  }

  /** PC on the stack. */
  lemma CallGoes<D>(p: Device<D>, c: Registers, o: Outside<D>, next: Prog) returns (c': Registers)
    ensures var s1 := PushPc(State(Seen(c), o));
      Effect(p, c, o, CallTo(next)) == Effect(p, c', s1.o, next) && Seen(c') == s1.r && c'.v == c.v
  {
    hide Effect, Then, Push, Slack, Priced, PushWord, Upper, Lower;
    PartGoes(p, c, o, Rx, Ry, Wpc, Push(next));
    c' := PushGoes(p, c.(x := Upper(c.pc), y := Lower(c.pc)), o, next);
  }

  lemma CallAgrees<D>(p: Device<D>, c: Registers, o: Outside<D>, op: Opcode)
    requires op == 0xCD || (0xC0 <= op < 0xE0 && op % 8 == 4)
    ensures Effect(p, c, o, if op == 0xCD then High5(op) else High4(op)) == CallOp(p, State(Seen(c), o), op)
  {
    hide Effect, Then, End, Either, Fetch16, CallTo, Slack, Priced, FetchWord, PushPc, Condition, Taken, Seen;
    var jump := Then(Copy16(Wpc, Wv), End(24));
    var branch := if op == 0xCD then CallTo(jump) else Either(op / 8 % 4, CallTo(jump), End(12));
    var c1 := FetchWordGoes(p, c, o, branch);
    var (w, s1) := FetchWord(p, State(Seen(c), o));
    var c2 := CallGoes(p, c1, s1.o, jump);
    SetPcGoes(p, c2, PushPc(s1).o, 24);
    Ends(p, c1, s1.o, 12);
    if op != 0xCD {
      Branches(p, c1, s1.o, op / 8 % 4, CallTo(jump), End(12));
      ConditionIs(Bits(c1), op);
      FetchKeepsFlags(p, State(Seen(c), o));
      SeenFlags(c1);
      SeenFlags(c);
    }
  }

  lemma RetAgrees<D>(p: Device<D>, c: Registers, o: Outside<D>, op: Opcode)
    requires op == 0xC9 || op == 0xD9 || (0xC0 <= op < 0xE0 && op % 8 == 0)
    ensures Effect(p, c, o, if op % 8 == 0 then High0(op) else High1(op)) == Ret(State(Seen(c), o), op)
  {
    hide Effect, Then, End, Either, Pop, Slack, Priced, PopWord, Condition, Taken, Seen, Joined, SetPair;
    var s1 := PopWord(State(Seen(c), o)).2;
    if op == 0xD9 {
      var c1 := PopGoes(p, c, o, Then(Copy16(Wpc, Wv), Then(SetIme(true), End(16))));
      CopyWordGoes(p, c1, s1.o, Wpc, Wv, Then(SetIme(true), End(16)));
      ControlGoes(p, c1.(pc := c1.v), s1.o, SetIme(true), End(16));
      Ends(p, c1.(pc := c1.v, ime := true), s1.o, 16);
      SeenReturn(c1);
    } else {
      var cost := if op == 0xC9 then 16 else 20;
      var c1 := PopGoes(p, c, o, Then(Copy16(Wpc, Wv), End(cost)));
      SetPcGoes(p, c1, s1.o, cost);
      if op != 0xC9 {
        Branches(p, c, o, op / 8 % 4, Pop(Then(Copy16(Wpc, Wv), End(20))), End(8));
        Ends(p, c, o, 8);
        ConditionIs(Bits(c), op);
        SeenFlags(c);
      }
    }
  }

  lemma SeenReturn(c: Registers)
    ensures Seen(c.(pc := c.v, ime := true)) == Seen(c).(pc := c.v, ime := true)
  {
  }

  lemma RstAgrees<D>(p: Device<D>, c: Registers, o: Outside<D>, op: Opcode)
    requires op >= 0xC0 && op % 8 == 7
    ensures Effect(p, c, o, High(op)) == Rst(State(Seen(c), o), op)
  {
    hide Effect, Then, End, CallTo, Slack, Priced, PushPc, Seen, High0, High1, High2, High3, High4, High5;
    assert op % 64 / 8 * 8 == op - 0xC7;
    var c1 := CallGoes(p, c, o, Then(PutWord(Wpc, op - 0xC7), End(16)));
    var o1 := PushPc(State(Seen(c), o)).o;
    PutWordGoes(p, c1, o1, Wpc, op - 0xC7, End(16));
    Ends(p, c1.(pc := op - 0xC7), o1, 16);
    SeenJump(c1, op - 0xC7);
  }

  lemma SeenJump(c: Registers, w: Word)
    ensures Seen(c.(pc := w)) == Seen(c).(pc := w)
  {
  }
}
