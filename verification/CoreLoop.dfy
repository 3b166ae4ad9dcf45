/**
 The core's outer loop: interrupt dispatch, opcode execution with its cycle credit, and stepping
 by a cycle budget. Every cycle declared is a cycle the peripherals were given.
 */
module CoreLoop {
  import opened MemoryBus
  import opened Core
  import opened Instructions

  datatype Outcome<+T> = Fine(value: T) | Panic

  // ----- Opcodes -----

  /** The body an opcode selects; the prefix opcode fetches one more byte to select it. */
  function Dispatch<V, W, M, B, D>(k: Backend<V, W, M, B>, p: Device<D>, m: Machine<V, W, M, B, D>, opcode: bv8)
    : (Machine<V, W, M, B, D>, nat)
  {
    if opcode == 0xCB then
      var m1 := Exec(k, p, m, FetchImm(Rx));
      Run(k, p, m1, CbBody(k.toU8(m1.cpu.x) as nat))
    else Run(k, p, m, Body(opcode as nat))
  }

  /** The delayed enable of EI: after the next instruction the master enable is set, whatever that
      instruction did to it. */
  function Settle<V, W, M>(c: Cpu<V, W, M>, pendingBefore: bool, opcode: bv8): Cpu<V, W, M> {
    if pendingBefore then c.(ime := true, pending := opcode == 0xFB) else c
  }

  /** Brings the cycles spent up to the declared cost. */
  function TopUp<V, W, M, B, D>(k: Backend<V, W, M, B>, p: Device<D>, m: Machine<V, W, M, B, D>, cost: nat)
    : Machine<V, W, M, B, D>
  {
    var m' := if cost > m.credit then Consume(k, p, m, cost - m.credit) else m;
    m'.(credit := 0)
  }

  function Opening<V, W, M, B, D>(k: Backend<V, W, M, B>, p: Device<D>, m: Machine<V, W, M, B, D>)
    : Machine<V, W, M, B, D>
  {
    Charge(k, p, Fetch(k, m.(credit := 0), Rx))
  }

  function ExecuteOpcode<V, W, M, B, D>(k: Backend<V, W, M, B>, p: Device<D>, m: Machine<V, W, M, B, D>)
    : (Machine<V, W, M, B, D>, nat)
  {
    var m1 := Opening(k, p, m);
    var opcode := k.toU8(m1.cpu.x);
    var (m2, cost) := Dispatch(k, p, m1, opcode);
    (TopUp(k, p, m2.(cpu := Settle(m2.cpu, m.cpu.pending, opcode)), cost), cost)
  }

  lemma DispatchWithinCost<V, W, M, B, D>(
    k: Backend<V, W, M, B>, p: Device<D>, m: Machine<V, W, M, B, D>, opcode: bv8)
    requires m.credit == 4
    ensures var (r, cost) := Dispatch(k, p, m, opcode);
      && cost % 4 == 0 && 4 <= cost <= 24
      && r.cycles - m.cycles == r.credit - 4 >= 0
      && r.credit <= cost
  {
    hide Run, Exec, Slack, Priced, Body, CbBody;
    if opcode == 0xCB {
      ExecCharges(k, p, m, FetchImm(Rx));
      var m1 := Exec(k, p, m, FetchImm(Rx));
      PrefixedPriced(k.toU8(m1.cpu.x) as nat);
      RunWithinCost(k, p, m1, CbBody(k.toU8(m1.cpu.x) as nat));
    } else {
      OpcodesPriced(opcode as nat);
      RunWithinCost(k, p, m, Body(opcode as nat));
    }
  }

  /** For every opcode, prefixed opcode and branch outcome, on every backend: the peripherals are
      given exactly the declared cost, no more and no less, and the credit starts over. */
  lemma CyclesConserved<V, W, M, B, D>(k: Backend<V, W, M, B>, p: Device<D>, m: Machine<V, W, M, B, D>)
    ensures var (r, cost) := ExecuteOpcode(k, p, m);
      r.cycles == m.cycles + cost && cost % 4 == 0 && 4 <= cost <= 24 && r.credit == 0
  {
    hide Dispatch, Charge, Fetch, Consume;
    var m1 := Opening(k, p, m);
    DispatchWithinCost(k, p, m1, k.toU8(m1.cpu.x));
  }

  /** The master enable after EI: the instruction in its shadow cannot keep it off. */
  lemma EiShadow<V, W, M, B, D>(k: Backend<V, W, M, B>, p: Device<D>, m: Machine<V, W, M, B, D>)
    requires m.cpu.pending
    ensures var r := ExecuteOpcode(k, p, m).0;
      r.cpu.ime && r.cpu.pending == (k.toU8(Opening(k, p, m).cpu.x) == 0xFB)
  {
    hide Dispatch, Opening, Consume;
  }

  // ----- Interrupts -----

  function TrailingZeros(v: bv8): nat {
    if v & 0x01 != 0 then 0 else if v & 0x02 != 0 then 1 else if v & 0x04 != 0 then 2 else if v & 0x08 != 0 then 3
    else if v & 0x10 != 0 then 4 else if v & 0x20 != 0 then 5 else if v & 0x40 != 0 then 6
    else if v & 0x80 != 0 then 7 else 8
  }

  function Vector(bit: nat): (w: Word)
    requires bit < 5
  {
    0x40 + 8 * bit
  }

  /** The interrupt's flag cleared and further interrupts held off. */
  function Acknowledged<V, W, M, B, D>(k: Backend<V, W, M, B>, m: Machine<V, W, M, B, D>, bit: nat)
    : Machine<V, W, M, B, D>
  {
    var flags := InterruptFlags(k, m.bus) & !BitMask(bit);
    m.(cpu := m.cpu.(halted := false, ime := false), bus := k.serve(m.bus, PutIf(flags)).0)
  }

  /** Jumps to the vector of interrupt `bit`. */
  function Enter<V, W, M, B, D>(k: Backend<V, W, M, B>, p: Device<D>, m: Machine<V, W, M, B, D>, bit: nat)
    : Machine<V, W, M, B, D>
    requires bit < 5
  {
    var m1 := Acknowledged(k, m, bit);
    Consume(k, p, Run(k, p, m1, CallTo(Then(PutWord(Wpc, Vector(bit)), End(20)))).0, 20)
  }

  function Pending<V, W, M, B>(k: Backend<V, W, M, B>, bus: B): bv8 {
    InterruptEnable(k, bus) & InterruptFlags(k, bus)
  }

  /** Serves the lowest pending interrupt; the table of vectors has five entries. */
  function ServiceInterrupts<V, W, M, B, D>(k: Backend<V, W, M, B>, p: Device<D>, m: Machine<V, W, M, B, D>)
    : Outcome<(Machine<V, W, M, B, D>, nat)>
  {
    var pending := Pending(k, m.bus);
    if pending == 0 then Fine((m, 0))
    else if m.cpu.ime then
      var bit := TrailingZeros(pending);
      if bit < 5 then Fine((Enter(k, p, m, bit), 20)) else Panic
    else Fine((m.(cpu := m.cpu.(halted := false)), 0))
  }

  lemma LowBits(v: bv8)
    ensures TrailingZeros(v) < 5 <==> v & 0x1F != 0
  {
  }

  /** Dispatch fails exactly when interrupts are on and only bits above the five lines are pending. */
  lemma DispatchPanicsIff<V, W, M, B, D>(k: Backend<V, W, M, B>, p: Device<D>, m: Machine<V, W, M, B, D>)
    ensures ServiceInterrupts(k, p, m).Panic?
       <==> m.cpu.ime && Pending(k, m.bus) != 0 && Pending(k, m.bus) & 0x1F == 0
  {
    hide Enter, Pending;
    LowBits(Pending(k, m.bus));
  }

  lemma EnterCosts<V, W, M, B, D>(k: Backend<V, W, M, B>, p: Device<D>, m: Machine<V, W, M, B, D>, bit: nat)
    requires bit < 5
    ensures Enter(k, p, m, bit).cycles == m.cycles + 20
  {
    hide Run, Slack, Priced, Then, End, CallTo, Consume;
    var m1 := Acknowledged(k, m, bit);
    DispatchIsFlat(Vector(bit));
    RunCost(k, p, m1, CallTo(Then(PutWord(Wpc, Vector(bit)), End(20))), 20);
  }

  /** Bare accesses are free: a body without fees leaves the cycle count alone. */
  lemma RunCost<V, W, M, B, D>(k: Backend<V, W, M, B>, p: Device<D>, m: Machine<V, W, M, B, D>, body: Prog, c: nat)
    requires Priced(body) && Slack(body) == c && OneCost(body, c)
    ensures Run(k, p, m, body).0.cycles == m.cycles
  {
    hide Run, Slack, Priced;
    RunWithinCost(k, p, m, body);
    OneCostRuns(k, p, m, body, c);
  }

  predicate OneCost(body: Prog, c: nat) {
    match body
    case Done(cost) => cost == c
    case Do(_, next) => OneCost(next, c)
    case If(_, taken, other) => OneCost(taken, c) && OneCost(other, c)
  }

  lemma {:induction false} OneCostRuns<V, W, M, B, D>(
    k: Backend<V, W, M, B>, p: Device<D>, m: Machine<V, W, M, B, D>, body: Prog, c: nat)
    requires OneCost(body, c)
    ensures Run(k, p, m, body).1 == c
    decreases body
  {
    hide Exec, Condition;
    match body {
      case Done(cost) =>
      case Do(op, next) => OneCostRuns(k, p, Exec(k, p, m, op), next, c);
      case If(cc, taken, other) =>
        OneCostRuns(k, p, m, if Condition(Flags(k, m.cpu), cc) then taken else other, c);
    }
  }

  lemma ThenIsFlat(op: Op, next: Prog, c: nat)
    ensures OneCost(next, c) ==> OneCost(Then(op, next), c)
  {
  }

  lemma DispatchIsFlat(w: Word)
    ensures OneCost(CallTo(Then(PutWord(Wpc, w), End(20))), 20)
  {
    hide Slack, Priced, OneCost;
    assert OneCost(End(20), 20) by { EndIsFlat(20); }
    ThenIsFlat(PutWord(Wpc, w), End(20), 20);
    PushIsFlat(Then(PutWord(Wpc, w), End(20)), 20);
    ThenIsFlat(Part(Rx, Ry, Wpc), Push(Then(PutWord(Wpc, w), End(20))), 20);
  }

  lemma EndIsFlat(c: nat)
    ensures OneCost(End(c), c)
  {
  }

  lemma PushIsFlat(next: Prog, c: nat)
    requires OneCost(next, c)
    ensures OneCost(Push(next), c)
  {
    hide Slack, Priced, OneCost, Then;
    var p1 := Then(Copy16(Wsp, Wu), next);
    var p2 := Then(BareStore(Wu, Ry), p1);
    var p3 := Then(Offset(Wu, Wu, 0xFFFF), p2);
    var p4 := Then(BareStore(Wu, Rx), p3);
    ThenIsFlat(Copy16(Wsp, Wu), next, c);
    ThenIsFlat(BareStore(Wu, Ry), p1, c);
    ThenIsFlat(Offset(Wu, Wu, 0xFFFF), p2, c);
    ThenIsFlat(BareStore(Wu, Rx), p3, c);
    ThenIsFlat(Offset(Wu, Wsp, 0xFFFF), p4, c);
  }

  // ----- Stepping by a budget -----

  function Min(a: nat, b: nat): nat {
    if a < b then a else b
  }

  /** One turn of the stepping loop: an interrupt, a halted machine cycle, or an instruction. */
  function Turn1<V, W, M, B, D>(k: Backend<V, W, M, B>, p: Device<D>, m: Machine<V, W, M, B, D>, budget: nat)
    : Outcome<Machine<V, W, M, B, D>>
  {
    match ServiceInterrupts(k, p, m)
    case Panic => Panic
    case Fine((m1, cycles)) =>
      Fine(if cycles != 0 then m1
           else if m1.cpu.halted then Consume(k, p, m1, Min(budget, 4))
           else ExecuteOpcode(k, p, m1).0)
  }

  lemma TurnAdvances<V, W, M, B, D>(k: Backend<V, W, M, B>, p: Device<D>, m: Machine<V, W, M, B, D>, budget: nat)
    requires budget > 0
    ensures var r := Turn1(k, p, m, budget);
      r.Fine? ==> m.cycles < r.value.cycles <= m.cycles + 24
  {
    hide ExecuteOpcode, Enter, Consume, Pending;
    var pending := Pending(k, m.bus);
    if pending != 0 && m.cpu.ime && TrailingZeros(pending) < 5 {
      EnterCosts(k, p, m, TrailingZeros(pending));
    }
    var s := ServiceInterrupts(k, p, m);
    if s.Fine? && s.value.1 == 0 {
      CyclesConserved(k, p, s.value.0);
    }
  }

  /** The stepping loop. */
  function StepLoop<V, W, M, B, D>(
    k: Backend<V, W, M, B>, p: Device<D>, m: Machine<V, W, M, B, D>, budget: nat, consumed: nat)
    : Outcome<(Machine<V, W, M, B, D>, nat)>
    decreases budget
  {
    if budget == 0 then Fine((m, consumed))
    else
      match Turn1(k, p, m, budget)
      case Panic => Panic
      case Fine(m1) =>
        TurnAdvances(k, p, m, budget);
        var delta := m1.cycles - m.cycles;
        if p.frameReady(m1.dev) then Fine((m1, consumed + delta))
        else StepLoop(k, p, m1, if budget > delta then budget - delta else 0, consumed + delta)
  }

  /** What a step reports it consumed is what the peripherals were given; it never overshoots by
      more than an instruction, and it stops short only where a frame completes. */
  lemma {:induction false} BudgetRespected<V, W, M, B, D>(
    k: Backend<V, W, M, B>, p: Device<D>, m: Machine<V, W, M, B, D>, budget: nat, consumed: nat)
    requires budget > 0
    ensures var r := StepLoop(k, p, m, budget, consumed);
      r.Fine? ==>
        && r.value.1 - consumed == r.value.0.cycles - m.cycles
        && 0 < r.value.1 - consumed <= budget + 23
        && (r.value.1 - consumed >= budget || p.frameReady(r.value.0.dev))
    decreases budget
  {
    hide Turn1;
    var t := Turn1(k, p, m, budget);
    if t.Fine? {
      var m1 := t.value;
      TurnAdvances(k, p, m, budget);
      var delta := m1.cycles - m.cycles;
      if !p.frameReady(m1.dev) {
        if budget > delta {
          BudgetRespected(k, p, m1, budget - delta, consumed + delta);
        } else {
          SpentLoop(k, p, m1, consumed + delta);
        }
      }
    }
  }

  lemma SpentLoop<V, W, M, B, D>(k: Backend<V, W, M, B>, p: Device<D>, m: Machine<V, W, M, B, D>, consumed: nat)
    ensures StepLoop(k, p, m, 0, consumed) == Fine((m, consumed))
  {
  }
}
