/**
 The instruction set as bodies for the core: which bytes each opcode fetches, reads and writes,
 what it computes, and what it declares to cost.
 */
module Instructions {
  import opened MemoryBus
  import opened Core

  type Code = n: nat | n < 8
  type Opcode = n: nat | n < 0x100

  // ----- Building bodies -----

  function End(cost: nat): (body: Prog)
    ensures Slack(body) == cost
    ensures cost % 4 == 0 && 4 <= cost <= 24 ==> Priced(body)
  {
    Done(cost)
  }

  function Then(op: Op, next: Prog): (body: Prog)
    ensures Slack(body) == Slack(next) - Fee(op)
    ensures Priced(body) == Priced(next)
  {
    Do(op, next)
  }

  function Either(cc: nat, taken: Prog, other: Prog): (body: Prog)
    ensures Slack(body) == if Slack(taken) < Slack(other) then Slack(taken) else Slack(other)
    ensures Priced(body) == (Priced(taken) && Priced(other))
  {
    If(cc, taken, other)
  }

  function Reg(code: Code): R8 {
    if code == 0 then Rb else if code == 1 then Rc else if code == 2 then Rd else if code == 3 then Re
    else if code == 4 then Rh else if code == 5 then Rl else Ra
  }

  /** The operand a code names into the scratch byte, read through HL for code 6. */
  function ReadR8(code: Code, next: Prog): (body: Prog)
    ensures Slack(body) == Slack(next) - (if code == 6 then 4 else 0)
    ensures Priced(body) == Priced(next)
  {
    if code == 6 then Then(Join(Wu, Rh, Rl), Then(Load(Rx, Wu), next))
    else Then(Copy8(Rx, Reg(code)), next)
  }

  function WriteR8(code: Code, next: Prog): (body: Prog)
    ensures Slack(body) == Slack(next) - (if code == 6 then 4 else 0)
    ensures Priced(body) == Priced(next)
  {
    if code == 6 then Then(Join(Wu, Rh, Rl), Then(Store(Wu, Rx), next))
    else Then(Copy8(Reg(code), Rx), next)
  }

  function Extra(code: Code): nat {
    if code == 6 then 4 else 0
  }

  function Fetch16(next: Prog): (body: Prog)
    ensures Slack(body) == Slack(next) - 8 && Priced(body) == Priced(next)
  {
    Then(FetchImm(Rx), Then(FetchImm(Ry), Then(Join(Wv, Ry, Rx), next)))
  }

  /** Pushes scratch bytes X (high) and Y (low). */
  function Push(next: Prog): (body: Prog)
    ensures Slack(body) == Slack(next) && Priced(body) == Priced(next)
  {
    Then(Offset(Wu, Wsp, 0xFFFF), Then(BareStore(Wu, Rx),
    Then(Offset(Wu, Wu, 0xFFFF), Then(BareStore(Wu, Ry), Then(Copy16(Wsp, Wu), next)))))
  }

  /** Pops into scratch word V. */
  function Pop(next: Prog): (body: Prog)
    ensures Slack(body) == Slack(next) && Priced(body) == Priced(next)
  {
    Then(Offset(Wu, Wsp, 0), Then(BareLoad(Rx, Wu),
    Then(Offset(Wu, Wu, 1), Then(BareLoad(Ry, Wu),
    Then(Offset(Wsp, Wu, 1), Then(Join(Wv, Ry, Rx), next))))))
  }

  /** Register pair `rp` into scratch word V; pair 3 is SP. */
  function GetPair(rp: nat, next: Prog): (body: Prog)
    ensures Slack(body) == Slack(next) && Priced(body) == Priced(next)
  {
    Then(if rp == 0 then Join(Wv, Rb, Rc) else if rp == 1 then Join(Wv, Rd, Re)
         else if rp == 2 then Join(Wv, Rh, Rl) else Copy16(Wv, Wsp), next)
  }

  function SetPair(rp: nat, next: Prog): (body: Prog)
    ensures Slack(body) == Slack(next) && Priced(body) == Priced(next)
  {
    Then(if rp == 0 then Part(Rb, Rc, Wv) else if rp == 1 then Part(Rd, Re, Wv)
         else if rp == 2 then Part(Rh, Rl, Wv) else Copy16(Wsp, Wv), next)
  }

  // ----- Instruction classes -----

  function AluOp(fn: Code): Op {
    if fn == 0 then Sum(false, Rx) else if fn == 1 then Sum(true, Rx)
    else if fn == 2 then Difference(false, true, Rx) else if fn == 3 then Difference(true, true, Rx)
    else if fn == 4 then Logic(And, Rx) else if fn == 5 then Logic(Xor, Rx) else if fn == 6 then Logic(Or, Rx)
    else Difference(false, false, Rx)
  }

  function Step8(code: Code, fn: Fn8): Prog {
    if code == 6 then
      Then(Join(Wu, Rh, Rl), Then(Load(Rx, Wu), Then(Native8(Rx, fn, Rx), Then(Store(Wu, Rx), End(12)))))
    else Then(Native8(Reg(code), fn, Reg(code)), End(4))
  }

  function Accumulator(code: Code): Fn8 {
    if code == 0 then Rlca else if code == 1 then Rrca else if code == 2 then Rla else if code == 3 then Rra
    else if code == 4 then Daa else if code == 5 then Cpl else if code == 6 then Scf else Ccf
  }

  /** Between A and the address in scratch word U, which then moves by `delta` into HL. */
  function Through(load: bool, delta: Word): Prog {
    Then(Join(Wu, Rh, Rl), Then(if load then Load(Rx, Wu) else Store(Wu, Ra),
    Then(Offset(Wv, Wu, delta), Then(Part(Rh, Rl, Wv),
    if load then Then(Copy8(Ra, Rx), End(8)) else End(8)))))
  }

  // ----- Opcodes 0x00 to 0x3F -----

  function Low0(op: Opcode): Prog {
    if op == 0x00 then End(4)
    else if op == 0x08 then
      Fetch16(Then(Part(Rx, Ry, Wsp), Then(Store(Wv, Ry), Then(Offset(Wv, Wv, 1), Then(Store(Wv, Rx), End(20))))))
    else if op == 0x10 then Then(Stop, End(4))
    else if op == 0x18 then Then(FetchImm(Rx), Then(AddSigned(Wpc, Wpc, Rx, false), End(12)))
    else Then(FetchImm(Rx), Either(op / 8 % 4, Then(AddSigned(Wpc, Wpc, Rx, false), End(12)), End(8)))
  }

  function Low1(op: Opcode): Prog {
    if op % 16 == 1 then Fetch16(SetPair(op / 16, End(12)))
    else GetPair(op / 16, Then(Join(Wu, Rh, Rl), Then(AddWords(Wu, Wu, Wv), Then(Part(Rh, Rl, Wu), End(8)))))
  }

  function Low2(op: Opcode): Prog {
    if op == 0x02 then Then(Join(Wu, Rb, Rc), Then(Store(Wu, Ra), End(8)))
    else if op == 0x12 then Then(Join(Wu, Rd, Re), Then(Store(Wu, Ra), End(8)))
    else if op == 0x0A then Then(Join(Wu, Rb, Rc), Then(Load(Ra, Wu), End(8)))
    else if op == 0x1A then Then(Join(Wu, Rd, Re), Then(Load(Ra, Wu), End(8)))
    else if op == 0x22 then Through(false, 1)
    else if op == 0x2A then Through(true, 1)
    else if op == 0x32 then Through(false, 0xFFFF)
    else Through(true, 0xFFFF)
  }

  function Low3(op: Opcode): Prog {
    GetPair(op / 16, Then(Offset(Wv, Wv, if op % 16 == 3 then 1 else 0xFFFF), SetPair(op / 16, End(8))))
  }

  function Low6(op: Opcode): Prog {
    var code := op / 8 % 8;
    if op == 0x36 then Then(FetchImm(Rx), Then(Join(Wu, Rh, Rl), Then(Store(Wu, Rx), End(12))))
    else Then(FetchImm(Rx), WriteR8(code, End(8 + Extra(code))))
  }

  function Low(op: Opcode): Prog {
    var z, code := op % 8, op / 8 % 8;
    if z == 0 then Low0(op)
    else if z == 1 then Low1(op)
    else if z == 2 then Low2(op)
    else if z == 3 then Low3(op)
    else if z == 4 then Step8(code, Inc)
    else if z == 5 then Step8(code, Dec)
    else if z == 6 then Low6(op)
    else Then(Native8(if code < 6 then Ra else Rx, Accumulator(code), Ra), End(4))
  }

  // ----- Opcodes 0xC0 to 0xFF -----

  function High0(op: Opcode): Prog {
    if op < 0xE0 then Either(op / 8 % 4, Pop(Then(Copy16(Wpc, Wv), End(20))), End(8))
    else if op == 0xE0 then Then(FetchImm(Rx), Then(HighPage(Wu, Rx), Then(Store(Wu, Ra), End(12))))
    else if op == 0xF0 then Then(FetchImm(Rx), Then(HighPage(Wu, Rx), Then(Load(Ra, Wu), End(12))))
    else if op == 0xE8 then Then(FetchImm(Rx), Then(AddSigned(Wsp, Wsp, Rx, true), End(16)))
    else Then(FetchImm(Rx), Then(AddSigned(Wv, Wsp, Rx, true), Then(Part(Rh, Rl, Wv), End(12))))
  }

  function High1(op: Opcode): Prog {
    if op == 0xF1 then Pop(Then(Part(Ra, Rx, Wv), Then(FlagsIn(Rx), End(12))))
    else if op % 16 == 1 then Pop(SetPair(op / 16 % 4, End(12)))
    else if op == 0xC9 then Pop(Then(Copy16(Wpc, Wv), End(16)))
    else if op == 0xD9 then Pop(Then(Copy16(Wpc, Wv), Then(SetIme(true), End(16))))
    else if op == 0xE9 then Then(Join(Wpc, Rh, Rl), End(4))
    else Then(Join(Wsp, Rh, Rl), End(8))
  }

  function High2(op: Opcode): Prog {
    if op < 0xE0 then Fetch16(Either(op / 8 % 4, Then(Copy16(Wpc, Wv), End(16)), End(12)))
    else if op == 0xE2 then Then(HighPage(Wu, Rc), Then(Store(Wu, Ra), End(8)))
    else if op == 0xF2 then Then(HighPage(Wu, Rc), Then(Load(Ra, Wu), End(8)))
    else if op == 0xEA then Fetch16(Then(Store(Wv, Ra), End(16)))
    else Fetch16(Then(Load(Ra, Wv), End(16)))
  }

  /** Opcode 0xCB is dispatched by the core on the byte after it. */
  function High3(op: Opcode): Prog {
    if op == 0xC3 then Fetch16(Then(Copy16(Wpc, Wv), End(16)))
    else if op == 0xF3 then Then(SetIme(false), Then(SetPending(false), End(4)))
    else if op == 0xFB then Then(SetPending(true), End(4))
    else End(4)
  }

  function CallTo(next: Prog): (body: Prog)
    ensures Slack(body) == Slack(next) && Priced(body) == Priced(next)
  {
    Then(Part(Rx, Ry, Wpc), Push(next))
  }

  function High4(op: Opcode): Prog {
    if op < 0xE0 then Fetch16(Either(op / 8 % 4, CallTo(Then(Copy16(Wpc, Wv), End(24))), End(12)))
    else End(4)
  }

  function High5(op: Opcode): Prog {
    if op == 0xF5 then Then(FlagsOut(Rx), Then(Join(Wv, Ra, Rx), Then(Part(Rx, Ry, Wv), Push(End(16)))))
    else if op % 16 == 5 then GetPair(op / 16 % 4, Then(Part(Rx, Ry, Wv), Push(End(16))))
    else if op == 0xCD then Fetch16(CallTo(Then(Copy16(Wpc, Wv), End(24))))
    else End(4)
  }

  function High(op: Opcode): Prog {
    var z, code := op % 8, op / 8 % 8;
    if z == 0 then High0(op)
    else if z == 1 then High1(op)
    else if z == 2 then High2(op)
    else if z == 3 then High3(op)
    else if z == 4 then High4(op)
    else if z == 5 then High5(op)
    else if z == 6 then Then(FetchImm(Rx), Then(AluOp(code), End(8)))
    else CallTo(Then(PutWord(Wpc, op % 64 / 8 * 8), End(16)))
  }

  // ----- All opcodes -----

  function Body(op: Opcode): Prog {
    var dst, src := op / 8 % 8, op % 8;
    if op < 0x40 then Low(op)
    else if op == 0x76 then Then(Halt, End(4))
    else if op < 0x80 then ReadR8(src, WriteR8(dst, End(4 + Extra(src) + Extra(dst))))
    else if op < 0xC0 then ReadR8(src, Then(AluOp(dst), End(4 + Extra(src))))
    else High(op)
  }

  function CbBody(sub: Opcode): Prog {
    var x, y, z := sub / 64, sub / 8 % 8, sub % 8;
    if x == 0 then ReadR8(z, Then(Native8(Rx, Rotate(y), Rx), WriteR8(z, End(8 + 2 * Extra(z)))))
    else if x == 1 then ReadR8(z, Then(Native8(Rx, TestBit(y), Rx), End(8 + Extra(z))))
    else if x == 2 then ReadR8(z, Then(Native8(Rx, ResetBit(y), Rx), WriteR8(z, End(8 + 2 * Extra(z)))))
    else ReadR8(z, Then(Native8(Rx, SetBit(y), Rx), WriteR8(z, End(8 + 2 * Extra(z)))))
  }

  // ----- Every opcode charges within its declared cost -----

  lemma LowPriced(op: Opcode)
    requires op < 0x40
    ensures Priced(Low(op)) && Slack(Low(op)) >= 4
  {
    hide Then, End, Either, ReadR8, WriteR8, Fetch16, GetPair, SetPair, Slack, Priced;
  }

  lemma HighPriced(op: Opcode)
    requires op >= 0xC0
    ensures Priced(High(op)) && Slack(High(op)) >= 4
  {
    hide Then, End, CallTo, Slack, Priced, High0, High1, High2, High3, High4, High5;
    if op % 8 < 3 { HighLowerPriced(op); } else if op % 8 < 6 { HighUpperPriced(op); }
  }

  lemma HighLowerPriced(op: Opcode)
    requires op >= 0xC0 && op % 8 < 3
    ensures op % 8 == 0 ==> Priced(High0(op)) && Slack(High0(op)) >= 4
    ensures op % 8 == 1 ==> Priced(High1(op)) && Slack(High1(op)) >= 4
    ensures op % 8 == 2 ==> Priced(High2(op)) && Slack(High2(op)) >= 4
  {
    hide Then, End, Either, Fetch16, SetPair, Pop, Slack, Priced;
  }

  lemma HighUpperPriced(op: Opcode)
    requires op >= 0xC0 && 3 <= op % 8 < 6
    ensures op % 8 == 3 ==> Priced(High3(op)) && Slack(High3(op)) >= 4
    ensures op % 8 == 4 ==> Priced(High4(op)) && Slack(High4(op)) >= 4
    ensures op % 8 == 5 ==> Priced(High5(op)) && Slack(High5(op)) >= 4
  {
    hide Then, End, Either, Fetch16, GetPair, Push, CallTo, Slack, Priced;
  }

  /** On every path of every opcode the accesses cost no more than the declared cycles, the opcode
      fetch included, and the declared cost is one to six machine cycles. */
  lemma OpcodesPriced(op: Opcode)
    ensures Priced(Body(op)) && Slack(Body(op)) >= 4
  {
    hide Then, End, Either, ReadR8, WriteR8, Slack, Priced, Low, High;
    if op < 0x40 {
      LowPriced(op);
    } else if op >= 0xC0 {
      HighPriced(op);
    }
  }

  /** The same for the prefixed opcodes, the prefix and the opcode fetch included. */
  lemma PrefixedPriced(sub: Opcode)
    ensures Priced(CbBody(sub)) && Slack(CbBody(sub)) >= 8
  {
    hide Then, End, Either, ReadR8, WriteR8, Slack, Priced;
  }
}
