/**
 The cycle count is honest: through any instruction, interrupt, halt and budgeted step, whatever the
 peripherals are, the spans they are handed add up to the cycles the core reports. The spans are
 counted by wrapping the peripherals; the wrapped run is the plain run with the count beside it.
 */
module CycleBooks {
  import opened MemoryBus
  import opened Core
  import opened Instructions
  import opened CoreLoop

  /** Peripherals with the sum of the spans they were handed and the longest of them. */
  datatype Booked<D> = Booked(dev: D, fed: nat, longest: nat)

  function Longer(a: nat, b: nat): nat {
    if a < b then b else a
  }

  /** The same peripherals, counted. */
  function Counted<D>(p: Device<D>): Device<Booked<D>> {
    Device((b: Booked<D>, n: nat) => Booked(p.begin(b.dev, n), b.fed + n, Longer(b.longest, n)),
           (b: Booked<D>) => p.ask(b.dev),
           (b: Booked<D>, answer: Answer) => b.(dev := p.tell(b.dev, answer)),
           p.turns,
           (b: Booked<D>) => p.frameReady(b.dev))
  }

  /** A machine with its books opened, and a machine without them. */
  function Opened<V, W, M, B, D>(m: Machine<V, W, M, B, D>): Machine<V, W, M, B, Booked<D>> {
    Machine(m.cpu, m.bus, Booked(m.dev, 0, 0), m.cycles, m.credit)
  }

  function Plain<V, W, M, B, D>(m: Machine<V, W, M, B, Booked<D>>): Machine<V, W, M, B, D> {
    Machine(m.cpu, m.bus, m.dev.dev, m.cycles, m.credit)
  }

  /** A condition on the peripherals that no span of at most an instruction takes away. */
  ghost predicate Keeps<V, W, M, B(!new), D(!new)>(k: Backend<V, W, M, B>, p: Device<D>, good: D -> bool) {
    forall bus: B, d: D, n: nat ::
      good(d) && 0 < n <= 24 ==> good(Turn(k, p, bus, p.begin(d, n), p.turns).1)
  }

  /** The books balance: cycles counted are cycles handed out, in spans of at most an instruction, and
      what such spans keep is kept. */
  predicate Balanced<V, W, M, B, D>(
    good: D -> bool, m: Machine<V, W, M, B, Booked<D>>, m': Machine<V, W, M, B, Booked<D>>)
  {
    && m'.cycles - m'.dev.fed == m.cycles - m.dev.fed
    && (m.dev.longest <= 24 ==> m'.dev.longest <= 24)
    && (good(m.dev.dev) ==> good(m'.dev.dev))
  }

  /** The counted run from `m` has arrived at `m'` where the plain one has arrived at `r`. */
  ghost predicate Follows<V, W, M, B, D>(
    good: D -> bool, m: Machine<V, W, M, B, Booked<D>>, m': Machine<V, W, M, B, Booked<D>>, r: Machine<V, W, M, B, D>)
  {
    Plain(m') == r && Balanced(good, m, m')
  }

  lemma FollowsOn<V, W, M, B, D>(
    good: D -> bool, m: Machine<V, W, M, B, Booked<D>>, m1: Machine<V, W, M, B, Booked<D>>,
    m2: Machine<V, W, M, B, Booked<D>>, r: Machine<V, W, M, B, D>)
    requires Balanced(good, m, m1) && Follows(good, m1, m2, r)
    ensures Follows(good, m, m2, r)
  {
    hide Plain;
  }

  lemma {:induction false} TurnCounted<V, W, M, B, D>(
    k: Backend<V, W, M, B>, p: Device<D>, bus: B, b: Booked<D>, turns: nat)
    ensures var (bus', b') := Turn(k, Counted(p), bus, b, turns);
      (bus', b'.dev) == Turn(k, p, bus, b.dev, turns) && b'.fed == b.fed && b'.longest == b.longest
    decreases turns
  {
    if turns > 0 && p.ask(b.dev).Some? {
      var (bus', answer) := k.serve(bus, p.ask(b.dev).value);
      TurnCounted(k, p, bus', b.(dev := p.tell(b.dev, answer)), turns - 1);
    }
  }

  lemma ConsumeCounted<V, W, M, B(!new), D(!new)>(
    k: Backend<V, W, M, B>, p: Device<D>, good: D -> bool, m: Machine<V, W, M, B, Booked<D>>, n: nat)
    requires n <= 24
    requires Keeps(k, p, good)
    ensures Follows(good, m, Consume(k, Counted(p), m, n), Consume(k, p, Plain(m), n))
  {
    hide Turn;
    TurnCounted(k, p, m.bus, Counted(p).begin(m.dev, n), p.turns);
  }

  lemma ChargeCounted<V, W, M, B(!new), D(!new)>(
    k: Backend<V, W, M, B>, p: Device<D>, good: D -> bool, m: Machine<V, W, M, B, Booked<D>>)
    requires Keeps(k, p, good)
    ensures Follows(good, m, Charge(k, Counted(p), m), Charge(k, p, Plain(m)))
  {
    hide Consume;
    ConsumeCounted(k, p, good, m, 4);
  }

  lemma FetchCounted<V, W, M, B, D>(
    k: Backend<V, W, M, B>, good: D -> bool, m: Machine<V, W, M, B, Booked<D>>, dst: R8)
    ensures Follows(good, m, Fetch(k, m, dst), Fetch(k, Plain(m), dst))
  {
    hide Set8;
  }

  lemma ExecCounted<V, W, M, B(!new), D(!new)>(
    k: Backend<V, W, M, B>, p: Device<D>, good: D -> bool, m: Machine<V, W, M, B, Booked<D>>, op: Op)
    requires Keeps(k, p, good)
    ensures Follows(good, m, Exec(k, Counted(p), m, op), Exec(k, p, Plain(m), op))
  {
    hide Charge, Fetch, OnCpu, Set8, Get8, Get16, InterruptEnable, InterruptFlags;
    if op.FetchImm? {
      FetchCounted(k, good, m, op.dst);
      ChargeCounted(k, p, good, Fetch(k, m, op.dst));
    } else if op.Load? {
      ChargeCounted(k, p, good, m.(cpu := Set8(m.cpu, op.dst, k.read(m.bus, Get16(m.cpu, op.addr)))));
    } else if op.Store? {
      ChargeCounted(k, p, good, m.(bus := k.write(m.bus, Get16(m.cpu, op.addr), Get8(m.cpu, op.src))));
    }
  }

  lemma {:induction false} RunCounted<V, W, M, B(!new), D(!new)>(
    k: Backend<V, W, M, B>, p: Device<D>, good: D -> bool, m: Machine<V, W, M, B, Booked<D>>, body: Prog)
    requires Keeps(k, p, good)
    ensures var ((m', cost), (r, cost')) := (Run(k, Counted(p), m, body), Run(k, p, Plain(m), body));
      Follows(good, m, m', r) && cost == cost'
    decreases body
  {
    hide Exec, Flags, Condition, Balanced, Plain;
    match body {
      case Done(_) => Untouched(good, m);
      case Do(op, next) =>
        ExecCounted(k, p, good, m, op);
        RunCounted(k, p, good, Exec(k, Counted(p), m, op), next);
        FollowsOn(good, m, Exec(k, Counted(p), m, op), Run(k, Counted(p), m, body).0, Run(k, p, Plain(m), body).0);
      case If(cc, taken, other) =>
        SameCpu(m);
        RunCounted(k, p, good, m, if Condition(Flags(k, m.cpu), cc) then taken else other);
    }
  }

  lemma Untouched<V, W, M, B, D>(good: D -> bool, m: Machine<V, W, M, B, Booked<D>>)
    ensures Follows(good, m, m, Plain(m))
  {
  }

  lemma SameCpu<V, W, M, B, D>(m: Machine<V, W, M, B, Booked<D>>)
    ensures Plain(m).cpu == m.cpu && Plain(m).bus == m.bus && Plain(m).cycles == m.cycles
    ensures Plain(m).credit == m.credit && Plain(m).dev == m.dev.dev
  {
  }

  lemma DispatchCounted<V, W, M, B(!new), D(!new)>(
    k: Backend<V, W, M, B>, p: Device<D>, good: D -> bool, m: Machine<V, W, M, B, Booked<D>>, opcode: bv8)
    requires Keeps(k, p, good)
    ensures var ((m', cost), (r, cost')) := (Dispatch(k, Counted(p), m, opcode), Dispatch(k, p, Plain(m), opcode));
      Follows(good, m, m', r) && cost == cost'
  {
    hide Exec, Run, Body, CbBody, Balanced, Plain;
    if opcode == 0xCB {
      var m1 := Exec(k, Counted(p), m, FetchImm(Rx));
      ExecCounted(k, p, good, m, FetchImm(Rx));
      SameCpu(m1);
      var body := CbBody(k.toU8(m1.cpu.x) as nat);
      RunCounted(k, p, good, m1, body);
      FollowsOn(good, m, m1, Run(k, Counted(p), m1, body).0, Run(k, p, Plain(m1), body).0);
    } else {
      RunCounted(k, p, good, m, Body(opcode as nat));
    }
  }

  lemma OpeningCounted<V, W, M, B(!new), D(!new)>(
    k: Backend<V, W, M, B>, p: Device<D>, good: D -> bool, m: Machine<V, W, M, B, Booked<D>>)
    requires Keeps(k, p, good)
    ensures Follows(good, m, Opening(k, Counted(p), m), Opening(k, p, Plain(m)))
  {
    hide Charge, Fetch;
    FetchCounted(k, good, m.(credit := 0), Rx);
    ChargeCounted(k, p, good, Fetch(k, m.(credit := 0), Rx));
  }

  lemma TopUpCounted<V, W, M, B(!new), D(!new)>(
    k: Backend<V, W, M, B>, p: Device<D>, good: D -> bool, m: Machine<V, W, M, B, Booked<D>>, cost: nat)
    requires cost <= 24
    requires Keeps(k, p, good)
    ensures Follows(good, m, TopUp(k, Counted(p), m, cost), TopUp(k, p, Plain(m), cost))
  {
    hide Consume;
    if cost > m.credit { ConsumeCounted(k, p, good, m, cost - m.credit); }
  }

  lemma WithCpuCounted<V, W, M, B, D>(
    good: D -> bool, m: Machine<V, W, M, B, Booked<D>>, m': Machine<V, W, M, B, Booked<D>>,
    r: Machine<V, W, M, B, D>, c: Cpu<V, W, M>)
    requires Follows(good, m, m', r)
    ensures Follows(good, m, m'.(cpu := c), r.(cpu := c))
  {
  }

  lemma ExecuteCounted<V, W, M, B(!new), D(!new)>(
    k: Backend<V, W, M, B>, p: Device<D>, good: D -> bool, m: Machine<V, W, M, B, Booked<D>>)
    requires Keeps(k, p, good)
    ensures var ((m', cost), (r, cost')) := (ExecuteOpcode(k, Counted(p), m), ExecuteOpcode(k, p, Plain(m)));
      Follows(good, m, m', r) && cost == cost'
  {
    hide Opening, Dispatch, TopUp, Settle, Balanced, Plain, Counted;
    var m1, r1 := Opening(k, Counted(p), m), Opening(k, p, Plain(m));
    OpeningCounted(k, p, good, m);
    SameCpu(m);
    SameCpu(m1);
    var opcode := k.toU8(m1.cpu.x);
    DispatchCounted(k, p, good, m1, opcode);
    var (m2, cost) := Dispatch(k, Counted(p), m1, opcode);
    var (r2, _) := Dispatch(k, p, r1, opcode);
    SameCpu(m2);
    var c := Settle(m2.cpu, m.cpu.pending, opcode);
    FollowsOn(good, m, m1, m2, r2);
    WithCpuCounted(good, m, m2, r2, c);
    OpeningCredit(k, Counted(p), m);
    DispatchWithinCost(k, Counted(p), m1, opcode);
    TopUpCounted(k, p, good, m2.(cpu := c), cost);
    FollowsOn(good, m, m2.(cpu := c), TopUp(k, Counted(p), m2.(cpu := c), cost), TopUp(k, p, r2.(cpu := c), cost));
  }

  lemma OpeningCredit<V, W, M, B, D>(k: Backend<V, W, M, B>, p: Device<D>, m: Machine<V, W, M, B, D>)
    ensures Opening(k, p, m).credit == 4
  {
    hide Charge, Fetch;
  }

  lemma EnterCounted<V, W, M, B(!new), D(!new)>(
    k: Backend<V, W, M, B>, p: Device<D>, good: D -> bool, m: Machine<V, W, M, B, Booked<D>>, bit: nat)
    requires bit < 5
    requires Keeps(k, p, good)
    ensures Follows(good, m, Enter(k, Counted(p), m, bit), Enter(k, p, Plain(m), bit))
  {
    hide Run, Consume, CallTo, Then, End, Acknowledged, Balanced, Plain;
    var m1 := Acknowledged(k, m, bit);
    AcknowledgedCounted(k, good, m, bit);
    var body := CallTo(Then(PutWord(Wpc, Vector(bit)), End(20)));
    RunCounted(k, p, good, m1, body);
    var m2 := Run(k, Counted(p), m1, body).0;
    FollowsOn(good, m, m1, m2, Plain(m2));
    ConsumeCounted(k, p, good, m2, 20);
    FollowsOn(good, m, m2, Consume(k, Counted(p), m2, 20), Consume(k, p, Plain(m2), 20));
  }

  lemma AcknowledgedCounted<V, W, M, B, D>(
    k: Backend<V, W, M, B>, good: D -> bool, m: Machine<V, W, M, B, Booked<D>>, bit: nat)
    ensures Follows(good, m, Acknowledged(k, m, bit), Acknowledged(k, Plain(m), bit))
  {
    hide InterruptFlags, BitMask;
  }

  lemma ServiceCounted<V, W, M, B(!new), D(!new)>(
    k: Backend<V, W, M, B>, p: Device<D>, good: D -> bool, m: Machine<V, W, M, B, Booked<D>>)
    requires Keeps(k, p, good)
    ensures var (s, r) := (ServiceInterrupts(k, Counted(p), m), ServiceInterrupts(k, p, Plain(m)));
      s.Fine? == r.Fine? && (s.Fine? ==> Follows(good, m, s.value.0, r.value.0) && s.value.1 == r.value.1)
  {
    hide Enter, Pending, TrailingZeros, Plain, Balanced;
    SameCpu(m);
    Untouched(good, m);
    WithCpuCounted(good, m, m, Plain(m), m.cpu.(halted := false));
    var bit := TrailingZeros(Pending(k, m.bus));
    if bit < 5 { EnterCounted(k, p, good, m, bit); }
  }

  lemma Turn1Counted<V, W, M, B(!new), D(!new)>(
    k: Backend<V, W, M, B>, p: Device<D>, good: D -> bool, m: Machine<V, W, M, B, Booked<D>>, budget: nat)
    requires Keeps(k, p, good)
    ensures var (s, r) := (Turn1(k, Counted(p), m, budget), Turn1(k, p, Plain(m), budget));
      s.Fine? == r.Fine? && (s.Fine? ==> Follows(good, m, s.value, r.value))
  {
    hide ServiceInterrupts, ExecuteOpcode, Consume, Plain, Balanced, Counted;
    ServiceCounted(k, p, good, m);
    var s := ServiceInterrupts(k, Counted(p), m);
    if s.Fine? {
      var m1 := s.value.0;
      SameCpu(m1);
      ConsumeCounted(k, p, good, m1, Min(budget, 4));
      ExecuteCounted(k, p, good, m1);
      FollowsOn(good, m, m1, Consume(k, Counted(p), m1, Min(budget, 4)), Consume(k, p, Plain(m1), Min(budget, 4)));
      FollowsOn(good, m, m1, ExecuteOpcode(k, Counted(p), m1).0, ExecuteOpcode(k, p, Plain(m1)).0);
    }
  }

  lemma {:induction false} StepLoopCounted<V, W, M, B(!new), D(!new)>(
    k: Backend<V, W, M, B>, p: Device<D>, good: D -> bool,
    m: Machine<V, W, M, B, Booked<D>>, budget: nat, consumed: nat)
    requires Keeps(k, p, good)
    ensures var (s, r) := (StepLoop(k, Counted(p), m, budget, consumed), StepLoop(k, p, Plain(m), budget, consumed));
      s.Fine? == r.Fine? && (s.Fine? ==> Follows(good, m, s.value.0, r.value.0) && s.value.1 == r.value.1)
    decreases budget
  {
    hide Turn1, Plain, Balanced;
    if budget == 0 {
      Untouched(good, m);
    } else {
      Turn1Counted(k, p, good, m, budget);
      TurnAdvances(k, Counted(p), m, budget);
      var t := Turn1(k, Counted(p), m, budget);
      if t.Fine? {
        SameCpu(m);
        SameCpu(t.value);
        var delta := t.value.cycles - m.cycles;
        if !p.frameReady(t.value.dev.dev) {
          var left := if budget > delta then budget - delta else 0;
          StepLoopCounted(k, p, good, t.value, left, consumed + delta);
          var s := StepLoop(k, Counted(p), t.value, left, consumed + delta);
          if s.Fine? {
            FollowsOn(good, m, t.value, s.value.0, StepLoop(k, p, Plain(t.value), left, consumed + delta).value.0);
          }
        }
      }
    }
  }

  /** Over a step by any budget, with any peripherals: the run with the books open is the run without
      them, the peripherals were handed exactly the cycles the step reports, and never more than 24 at
      once. */
  lemma PeripheralsFed<V, W, M, B(!new), D(!new)>(
    k: Backend<V, W, M, B>, p: Device<D>, m: Machine<V, W, M, B, D>, budget: nat)
    ensures var (s, r) := (StepLoop(k, Counted(p), Opened(m), budget, 0), StepLoop(k, p, m, budget, 0));
      && s.Fine? == r.Fine?
      && (s.Fine? ==>
            && Plain(s.value.0) == r.value.0 && s.value.1 == r.value.1
            && s.value.0.dev.fed == r.value.1 && s.value.0.dev.longest <= 24)
  {
    hide StepLoop, Counted;
    assert Plain(Opened(m)) == m;
    StepLoopCounted(k, p, (d: D) => true, Opened(m), budget, 0);
    if budget == 0 {
      SpentLoop(k, p, m, 0);
    } else {
      BudgetRespected(k, p, m, budget, 0);
    }
  }

  /** And so whatever every span of at most 24 cycles keeps of the peripherals, a whole step keeps. */
  lemma StepKeeps<V, W, M, B(!new), D(!new)>(
    k: Backend<V, W, M, B>, p: Device<D>, good: D -> bool, m: Machine<V, W, M, B, D>, budget: nat)
    requires Keeps(k, p, good) && good(m.dev)
    ensures var r := StepLoop(k, p, m, budget, 0);
      r.Fine? ==> good(r.value.0.dev)
  {
    hide StepLoop, Counted, Keeps;
    assert Plain(Opened(m)) == m;
    StepLoopCounted(k, p, good, Opened(m), budget, 0);
  }
}
