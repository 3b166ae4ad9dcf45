/**
 The core's loop against the manual: whole instructions, interrupts and turns, and how turns make up a
 budgeted step.
 */
module ManualLoop {
  import opened MemoryBus
  import opened Core
  import opened Instructions
  import opened CoreLoop
  import opened Lanes
  import opened Lockstep
  import opened Manual
  import opened ManualSteps
  import opened ManualRuns
  import opened ManualAgrees

  // ----- Machines and what they show -----

  lemma AtItself<D>(m: Scalar<D>)
    ensures At(m.cpu, Around(m)) == m && Shown(m) == State(Seen(m.cpu), Around(m))
  {
    hide Seen;
  }

  lemma RunsEffect<D>(p: Device<D>, m: Scalar<D>, body: Prog)
    ensures var (r, cost) := Run(ScalarBackend(), p, m, body); (Shown(r), cost) == Effect(p, m.cpu, Around(m), body)
  {
    hide ScalarBackend, Run, Seen;
    AtItself(m);
  }

  lemma FetchShown<D>(p: Device<D>, m: Scalar<D>)
    ensures var r := Charge(ScalarBackend(), p, Fetch(ScalarBackend(), m, Rx));
      var (v, s1) := FetchByte(p, Shown(m));
      Shown(r) == s1 && r.cpu.x == v
  {
    hide ScalarBackend, Charge, Fetch, ReadByte, Spend, Seen, Moved;
    var c' := AfterFetch(m.cpu, Rx, ReadByte(m.bus, m.cpu.pc));
    assert Fetch(ScalarBackend(), m, Rx) == At(c', Around(m)) by { FetchIs(m); }
    ChargeSpends(p, c', Around(m));
    SeenFetch(m.cpu, ReadByte(m.bus, m.cpu.pc));
  }

  lemma FetchIs<D>(m: Scalar<D>)
    ensures Fetch(ScalarBackend(), m, Rx) == At(AfterFetch(m.cpu, Rx, ReadByte(m.bus, m.cpu.pc)), Around(m))
  {
    hide ReadByte;
    BackAgain(m.cpu.pc);
  }

  lemma SeenFetch(c: Registers, v: bv8)
    ensures var c', r := AfterFetch(c, Rx, v), Seen(c);
      && Seen(c') == r.(pc := if r.haltBug then r.pc else Moved(r.pc, 1), haltBug := false) && c'.x == v
      && r.pc == c.pc
  {
    hide Moved;
  }

  // ----- Whole instructions -----

  lemma OpeningShown<D>(p: Device<D>, m: Scalar<D>)
    ensures var r := Opening(ScalarBackend(), p, m);
      var (v, s1) := FetchByte(p, Shown(m).(o := Around(m).(credit := 0)));
      Shown(r) == s1 && r.cpu.x == v
  {
    hide ScalarBackend, Charge, Fetch, FetchByte, Seen;
    FetchShown(p, m.(credit := 0));
  }

  lemma DispatchShown<D>(p: Device<D>, m: Scalar<D>, op: bv8)
    ensures var (r, cost) := Dispatch(ScalarBackend(), p, m, op);
      var (sub, s1) := FetchByte(p, Shown(m));
      (Shown(r), cost) == if op == 0xCB then Prefixed(p, s1, sub as nat) else Instruction(p, Shown(m), op as nat)
  {
    hide ScalarBackend, Run, Charge, Fetch, FetchByte, Seen, Body, CbBody, Prefixed, Instruction, Shown, Effect;
    AtItself(m);
    if op == 0xCB {
      PrefixShown(p, m);
      var m1 := Exec(ScalarBackend(), p, m, FetchImm(Rx));
      AtItself(m1);
      AsItIs(m1.cpu.x);
      RunsEffect(p, m1, CbBody(m1.cpu.x as nat));
      EveryPrefixed(p, m1.cpu, Around(m1), m1.cpu.x as nat);
    } else {
      RunsEffect(p, m, Body(op as nat));
      EveryOpcode(p, m.cpu, Around(m), op as nat);
    }
  }

  lemma PrefixShown<D>(p: Device<D>, m: Scalar<D>)
    ensures var r := Exec(ScalarBackend(), p, m, FetchImm(Rx));
      var (v, s1) := FetchByte(p, Shown(m));
      Shown(r) == s1 && r.cpu.x == v
  {
    hide ScalarBackend, Charge, Fetch, FetchByte, Shown;
    FetchShown(p, m);
  }

  lemma AsItIs(v: bv8)
    ensures ScalarBackend().toU8(v) == v
  {
  }

  lemma SettleShown(c: Registers, pending: bool, op: bv8)
    ensures Seen(Settle(c, pending, op))
         == if pending then Seen(c).(ime := true, pending := op == 0xFB) else Seen(c)
  {
  }

  lemma TopUpShown<D>(p: Device<D>, m: Scalar<D>, cost: nat)
    ensures Shown(TopUp(ScalarBackend(), p, m, cost))
         == State(Seen(m.cpu), Passed(p, Around(m), if cost > m.credit then cost - m.credit else 0).(credit := 0))
  {
    hide ScalarBackend, Consume, Passed, Seen;
    AtItself(m);
    var left := if cost > m.credit then cost - m.credit else 0;
    ConsumePasses(p, m.cpu, Around(m), left);
    NoTime(p, Around(m));
  }

  lemma NoTime<D>(p: Device<D>, o: Outside<D>)
    ensures Passed(p, o, 0) == o
  {
    hide ScalarBackend, Turn;
  }

  /** Fetching and executing an instruction, prefix, delayed interrupt enable and remaining time
      included, does what the manual says. */
  lemma WholeInstruction<D>(p: Device<D>, m: Scalar<D>)
    ensures var (r, cost) := ExecuteOpcode(ScalarBackend(), p, m); (Shown(r), cost) == Execute(p, Shown(m))
  {
    hide ScalarBackend, Opening, Dispatch, Settle, TopUp, Instruction, Prefixed, Seen, FetchByte, Passed;
    var m1 := Opening(ScalarBackend(), p, m);
    OpeningShown(p, m);
    var op := m1.cpu.x;
    AsItIs(op);
    var (m2, cost) := Dispatch(ScalarBackend(), p, m1, op);
    DispatchShown(p, m1, op);
    SettleShown(m2.cpu, m.cpu.pending, op);
    TopUpShown(p, m2.(cpu := Settle(m2.cpu, m.cpu.pending, op)), cost);
    SeenPending(m.cpu);
  }

  lemma SeenPending(c: Registers)
    ensures Seen(c).pending == c.pending && Seen(c).ime == c.ime && Seen(c).halted == c.halted
  {
  }

  // ----- Interrupts -----

  lemma LowestIs(v: bv8)
    ensures TrailingZeros(v) < 5 <==> Lowest(v, 0) < 5
    ensures TrailingZeros(v) < 5 ==> TrailingZeros(v) == Lowest(v, 0)
  {
    hide HasBit;
    assert Lowest(v, 5) == 5 && Lowest(v, 4) == (if HasBit(v, 4) then 4 else 5);
    assert Lowest(v, 3) == (if HasBit(v, 3) then 3 else Lowest(v, 4));
    assert Lowest(v, 2) == (if HasBit(v, 2) then 2 else Lowest(v, 3));
    BitsOne(v);
  }

  lemma BitsOne(v: bv8)
    ensures HasBit(v, 0) == (v & 0x01 != 0) && HasBit(v, 1) == (v & 0x02 != 0) && HasBit(v, 2) == (v & 0x04 != 0)
    ensures HasBit(v, 3) == (v & 0x08 != 0) && HasBit(v, 4) == (v & 0x10 != 0)
  {
  }

  /** The machine with the flag of an interrupt cleared and interrupts off. */
  lemma AcknowledgedIs<D>(m: Scalar<D>, bit: Code)
    ensures var flags := (Without(m.bus.io[0x0F], bit) & 0x1F) | 0xE0;
      Acknowledged(ScalarBackend(), m, bit)
      == At(m.cpu.(halted := false, ime := false), Around(m).(bus := m.bus.(io := m.bus.io[0x0F := flags])))
  {
    hide BitMask;
    MaskAgrees(bit);
  }

  lemma VectorGoes<D>(p: Device<D>, c: Registers, o: Outside<D>, w: Word)
    ensures var s1 := PushPc(State(Seen(c), o));
      Effect(p, c, o, CallTo(Then(PutWord(Wpc, w), End(20)))) == (s1.(r := s1.r.(pc := w)), 20)
  {
    hide Effect, Then, End, CallTo, Slack, Priced, PushPc, Seen;
    var c1 := CallGoes(p, c, o, Then(PutWord(Wpc, w), End(20)));
    var o1 := PushPc(State(Seen(c), o)).o;
    PutWordGoes(p, c1, o1, Wpc, w, End(20));
    Ends(p, c1.(pc := w), o1, 20);
    SeenJump(c1, w);
  }

  lemma EnterShown<D>(p: Device<D>, m: Scalar<D>, bit: nat)
    requires bit < 5
    ensures Shown(Enter(ScalarBackend(), p, m, bit)) == Interrupted(p, Shown(m), bit)
  {
    hide ScalarBackend, Run, Consume, Passed, Acknowledged, Effect, Then, End, CallTo, Slack, Priced, PushWord, Without;
    hide Seen, Upper, Lower;
    var m1 := Acknowledged(ScalarBackend(), m, bit);
    var body := CallTo(Then(PutWord(Wpc, Vector(bit)), End(20)));
    AcknowledgedIs(m, bit);
    AtItself(m1);
    RunsEffect(p, m1, body);
    VectorGoes(p, m1.cpu, Around(m1), Vector(bit));
    var m2 := Run(ScalarBackend(), p, m1, body).0;
    AtItself(m2);
    ConsumePasses(p, m2.cpu, Around(m2), 20);
    SeenQuiet(m.cpu);
    PushKeeps(Shown(m1));
    PushAlike(Shown(m), Shown(m1));
  }

  lemma SeenQuiet(c: Registers)
    ensures Seen(c.(halted := false, ime := false)) == Seen(c).(halted := false, ime := false)
  {
  }

  lemma PushKeeps<D>(s: State<D>)
    ensures var s1 := PushPc(s); s1.r == s.r.(sp := s1.r.sp)
  {
    hide WriteByte, Moved, Upper, Lower;
  }

  /** What a push does to memory and stack pointer does not depend on the interrupt switches. */
  lemma PushAlike<D>(s: State<D>, t: State<D>)
    requires t.r == s.r.(halted := false, ime := false)
    ensures PushPc(s.(o := t.o)) == PushPc(t).(r := PushPc(t).r.(halted := s.r.halted, ime := s.r.ime))
  {
    hide WriteByte, Moved, Upper, Lower;
  }

  lemma PendingIs(bus: Bus)
    ensures Pending(ScalarBackend(), bus) == Waiting(bus)
  {
  }

  /** Interrupt service: which line is taken, its vector, its flag, the stack and the time, and when
      nothing is taken or there is no vector. */
  lemma InterruptsShown<D>(p: Device<D>, m: Scalar<D>)
    ensures var r := ServiceInterrupts(ScalarBackend(), p, m);
      Interrupts(p, Shown(m)) == if r.Panic? then Panic else Fine((Shown(r.value.0), r.value.1))
  {
    hide ScalarBackend, Enter, Interrupted, Pending, Waiting, TrailingZeros, Lowest, Seen;
    PendingIs(m.bus);
    var pending := Pending(ScalarBackend(), m.bus);
    LowestIs(pending);
    SeenPending(m.cpu);
    SeenAwake(m.cpu);
    if pending != 0 && m.cpu.ime && TrailingZeros(pending) < 5 { EnterShown(p, m, TrailingZeros(pending)); }
  }

  lemma SeenAwake(c: Registers)
    ensures Seen(c.(halted := false)) == Seen(c).(halted := false)
  {
  }

  // ----- Turns and steps -----

  /** One turn of the core's loop is one turn by the manual. */
  lemma EveryTurn<D>(p: Device<D>, m: Scalar<D>, budget: nat)
    ensures var r := Turn1(ScalarBackend(), p, m, budget);
      OneTurn(p, Shown(m), budget) == if r.Panic? then Panic else Fine(Shown(r.value))
  {
    hide ScalarBackend, ServiceInterrupts, ExecuteOpcode, Consume, Interrupts, Execute, Passed, Seen;
    InterruptsShown(p, m);
    var s := ServiceInterrupts(ScalarBackend(), p, m);
    if s.Fine? {
      var m1 := s.value.0;
      SeenPending(m1.cpu);
      WholeInstruction(p, m1);
      AtItself(m1);
      ConsumePasses(p, m1.cpu, Around(m1), Min(budget, 4));
    }
  }

  /** `n` turns, each told what is left of the budget. */
  function Turns<D>(p: Device<D>, s: State<D>, budget: nat, n: nat): Outcome<State<D>>
    decreases n
  {
    if n == 0 then Fine(s)
    else
      match OneTurn(p, s, budget)
      case Panic => Panic
      case Fine(s1) =>
        var spent := if s1.o.cycles < s.o.cycles then 0 else s1.o.cycles - s.o.cycles;
        Turns(p, s1, if spent < budget then budget - spent else 0, n - 1)
  }

  /** After `n` turns the budget is not spent and no frame is complete. */
  ghost predicate GoesOn<D>(p: Device<D>, s: State<D>, budget: nat, n: nat) {
    var t := Turns(p, s, budget, n);
    t.Fine? && t.value.o.cycles < s.o.cycles + budget && !p.frameReady(t.value.o.dev)
  }

  /** A budgeted step is so many turns by the manual: it goes on exactly while cycles are left and no
      frame has completed, and fails only if one of its turns does. */
  lemma {:induction false} EveryStep<D>(p: Device<D>, m: Scalar<D>, budget: nat, consumed: nat) returns (n: nat)
    requires budget > 0
    ensures var r, t := StepLoop(ScalarBackend(), p, m, budget, consumed), Turns(p, Shown(m), budget, n);
      && n > 0 && (forall i :: 0 < i < n ==> GoesOn(p, Shown(m), budget, i)) && !GoesOn(p, Shown(m), budget, n)
      && t == if r.Panic? then Panic else Fine(Shown(r.value.0))
    decreases budget
  {
    hide ScalarBackend, Turn1, OneTurn, Seen;
    var t := Turn1(ScalarBackend(), p, m, budget);
    EveryTurn(p, m, budget);
    n := 1;
    OneIsTurn(p, Shown(m), budget);
    if t.Fine? {
      var m1 := t.value;
      TurnAdvances(ScalarBackend(), p, m, budget);
      var delta := m1.cycles - m.cycles;
      if !p.frameReady(m1.dev) {
        if budget > delta {
          var n1 := EveryStep(p, m1, budget - delta, consumed + delta);
          n := n1 + 1;
          LaterTurns(p, Shown(m), Shown(m1), budget, n1);
        } else {
          SpentLoop(ScalarBackend(), p, m1, consumed + delta);
        }
      }
    }
  }

  lemma OneIsTurn<D>(p: Device<D>, s: State<D>, budget: nat)
    ensures Turns(p, s, budget, 1) == OneTurn(p, s, budget)
  {
    hide OneTurn;
    var t := OneTurn(p, s, budget);
    if t.Fine? {
      var spent := if t.value.o.cycles < s.o.cycles then 0 else t.value.o.cycles - s.o.cycles;
      assert Turns(p, t.value, if spent < budget then budget - spent else 0, 0) == t;
    }
  }

  lemma LaterTurns<D>(p: Device<D>, s: State<D>, s1: State<D>, budget: nat, n: nat)
    requires OneTurn(p, s, budget) == Fine(s1) && s.o.cycles < s1.o.cycles < s.o.cycles + budget
    requires n > 0 && !p.frameReady(s1.o.dev)
    requires var left := s.o.cycles + budget - s1.o.cycles;
      (forall i :: 0 < i < n ==> GoesOn(p, s1, left, i)) && !GoesOn(p, s1, left, n)
    ensures Turns(p, s, budget, n + 1) == Turns(p, s1, s.o.cycles + budget - s1.o.cycles, n)
    ensures (forall i :: 0 < i < n + 1 ==> GoesOn(p, s, budget, i)) && !GoesOn(p, s, budget, n + 1)
  {
    hide OneTurn;
    var left := s.o.cycles + budget - s1.o.cycles;
    forall i | 0 < i < n + 1 ensures GoesOn(p, s, budget, i) {
      if i == 1 { OneIsTurn(p, s, budget); }
      else { assert GoesOn(p, s1, left, i - 1); }
    }
  }
}
