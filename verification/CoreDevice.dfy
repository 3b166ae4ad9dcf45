/**
 The core as an object: its loops over peripheral calls, over an instruction body and over a cycle
 budget compute the functions the theorems are about, for any backend.
 */
module CoreDevice {
  import opened MemoryBus
  import opened Core
  import opened Instructions
  import opened CoreLoop

  class CoreUnit<V, W, M, B, D> {
    const k: Backend<V, W, M, B>
    const p: Device<D>
    var cpu: Cpu<V, W, M>
    var bus: B
    var dev: D
    var cycles: nat
    var credit: nat

    ghost function Value(): Machine<V, W, M, B, D>
      reads this
    {
      Machine(cpu, bus, dev, cycles, credit)
    }

    constructor (k: Backend<V, W, M, B>, p: Device<D>, m: Machine<V, W, M, B, D>)
      ensures this.k == k && this.p == p && Value() == m
    {
      this.k, this.p := k, p;
      cpu, bus, dev, cycles, credit := m.cpu, m.bus, m.dev, m.cycles, m.credit;
    }

    method ConsumeCycles(n: nat)
      modifies this
      ensures Value() == Consume(k, p, old(Value()), n)
    {
      if n == 0 { return; }
      ghost var bus0, dev0 := bus, p.begin(dev, n);
      dev := p.begin(dev, n);
      var turns: nat := p.turns;
      while turns > 0 && p.ask(dev).Some?
        invariant turns <= p.turns
        invariant Turn(k, p, bus, dev, turns) == Turn(k, p, bus0, dev0, p.turns)
        invariant cpu == old(cpu) && cycles == old(cycles) && credit == old(credit)
      {
        var (bus', answer) := k.serve(bus, p.ask(dev).value);
        bus := bus';
        dev := p.tell(dev, answer);
        turns := turns - 1;
      }
      assert Turn(k, p, bus, dev, turns) == (bus, dev);
      cycles := cycles + n;
    }

    method ChargeFour()
      modifies this
      ensures Value() == Charge(k, p, old(Value()))
    {
      ConsumeCycles(4);
      credit := credit + 4;
    }

    /** Fetches through the program counter into a scratch or real register. */
    method FetchByte(dst: R8)
      modifies this
      ensures Value() == Fetch(k, old(Value()), dst)
    {
      hide Set8;
      var byte := k.read(bus, cpu.pc);
      var next := k.fromU16(WordAdd(k.toU16(cpu.pc), 1));
      cpu := cpu.(pc := next);
      if cpu.haltBug {
        cpu := cpu.(haltBug := false);
        cpu := cpu.(pc := k.fromU16(WordAdd(k.toU16(cpu.pc), 0xFFFF)));
      }
      cpu := Set8(cpu, dst, byte);
    }

    method LoadByte(dst: R8, addr: R16)
      modifies this
      ensures Value() == old(Value()).(cpu := Set8(old(cpu), dst, k.read(old(bus), Get16(old(cpu), addr))))
    {
      hide Set8, Get16;
      cpu := Set8(cpu, dst, k.read(bus, Get16(cpu, addr)));
    }

    method StoreByte(addr: R16, src: R8)
      modifies this
      ensures Value() == old(Value()).(bus := k.write(old(bus), Get16(old(cpu), addr), Get8(old(cpu), src)))
    {
      hide Get8, Get16;
      bus := k.write(bus, Get16(cpu, addr), Get8(cpu, src));
    }

    /** HALT waits for an interrupt, or with one already due and interrupts off, trips the bug. */
    method EnterHalt()
      modifies this
      ensures Value() == Exec(k, p, old(Value()), Halt)
    {
      hide InterruptEnable, InterruptFlags;
      var waiting := InterruptEnable(k, bus) & InterruptFlags(k, bus) & 0x1F != 0;
      if cpu.ime || !waiting {
        cpu := cpu.(halted := true);
      } else {
        cpu := cpu.(haltBug := true);
      }
    }

    method Perform(op: Op)
      modifies this
      ensures Value() == Exec(k, p, old(Value()), op)
    {
      hide OnCpu, Set8, Get8, Get16, Charge, Fetch, InterruptEnable, InterruptFlags;
      match op {
        case FetchImm(dst) =>
          FetchByte(dst);
          ChargeFour();
        case Load(dst, addr) =>
          LoadByte(dst, addr);
          ChargeFour();
        case Store(addr, src) =>
          StoreByte(addr, src);
          ChargeFour();
        case BareLoad(dst, addr) => LoadByte(dst, addr);
        case BareStore(addr, src) => StoreByte(addr, src);
        case Halt => EnterHalt();
        case _ => cpu := OnCpu(k, cpu, op);
      }
    }

    method RunBody(body: Prog) returns (cost: nat)
      modifies this
      ensures (Value(), cost) == Run(k, p, old(Value()), body)
    {
      hide Exec, Flags, Condition;
      ghost var m := Value();
      var at := body;
      while !at.Done?
        invariant Run(k, p, Value(), at) == Run(k, p, m, body)
        decreases at
      {
        if at.Do? {
          Perform(at.op);
          at := at.next;
        } else {
          at := if Condition(Flags(k, cpu), at.cc) then at.taken else at.other;
        }
      }
      cost := at.cost;
    }

    /** Runs the body an opcode selects. */
    method Decode(opcode: bv8) returns (cost: nat)
      modifies this
      ensures (Value(), cost) == Dispatch(k, p, old(Value()), opcode)
    {
      hide Exec, Run, Body, CbBody;
      if opcode == 0xCB {
        Perform(FetchImm(Rx));
        cost := RunBody(CbBody(k.toU8(cpu.x) as nat));
      } else {
        cost := RunBody(Body(opcode as nat));
      }
    }

    method Finish(cost: nat)
      modifies this
      ensures Value() == TopUp(k, p, old(Value()), cost)
    {
      hide Consume;
      if cost > credit {
        ConsumeCycles(cost - credit);
      }
      credit := 0;
    }

    /** Executes one instruction and returns the cycles it declared, which are those it took. */
    method ExecuteInstruction() returns (cost: nat)
      modifies this
      ensures (Value(), cost) == ExecuteOpcode(k, p, old(Value()))
      ensures cycles == old(cycles) + cost && cost % 4 == 0 && 4 <= cost <= 24
    {
      hide Charge, Fetch, Dispatch, TopUp;
      CyclesConserved(k, p, Value());
      credit := 0;
      var pendingBefore := cpu.pending;
      FetchByte(Rx);
      ChargeFour();
      var opcode := k.toU8(cpu.x);
      cost := Decode(opcode);
      if pendingBefore {
        cpu := cpu.(ime := true, pending := opcode == 0xFB);
      }
      Finish(cost);
    }

    method EnterVector(bit: nat)
      requires bit < 5
      modifies this
      ensures Value() == Enter(k, p, old(Value()), bit)
    {
      hide Run, Consume, InterruptFlags, BitMask, CallTo, Then, End;
      cpu := cpu.(halted := false, ime := false);
      var flags := InterruptFlags(k, bus) & !BitMask(bit);
      bus := k.serve(bus, PutIf(flags)).0;
      var _ := RunBody(CallTo(Then(PutWord(Wpc, Vector(bit)), End(20))));
      ConsumeCycles(20);
    }

    /** Serves an interrupt if one is due; `ok` is false where the vector table would be overrun. */
    method Service() returns (ok: bool, taken: nat)
      modifies this
      ensures ServiceInterrupts(k, p, old(Value())) == if ok then Fine((Value(), taken)) else Panic
    {
      hide Enter, Pending, TrailingZeros;
      var pending := Pending(k, bus);
      if pending == 0 { return true, 0; }
      if !cpu.ime {
        cpu := cpu.(halted := false);
        return true, 0;
      }
      var bit := TrailingZeros(pending);
      if bit >= 5 { return false, 0; }
      EnterVector(bit);
      return true, 20;
    }

    /** One turn: an interrupt, a halted machine cycle, or an instruction. */
    method TakeTurn(budget: nat) returns (ok: bool)
      modifies this
      ensures Turn1(k, p, old(Value()), budget) == if ok then Fine(Value()) else Panic
    {
      hide ServiceInterrupts, ExecuteOpcode, Consume;
      var fine, taken := Service();
      if !fine { return false; }
      if taken == 0 {
        if cpu.halted {
          ConsumeCycles(if budget < 4 then budget else 4);
        } else {
          var _ := ExecuteInstruction();
        }
      }
      ok := true;
    }

    /** Runs until the budget is spent or a frame completes. */
    method StepCycles(budget: nat) returns (ok: bool, consumed: nat)
      modifies this
      ensures StepLoop(k, p, old(Value()), budget, 0) == if ok then Fine((Value(), consumed)) else Panic
      ensures ok && budget > 0 ==>
        && consumed == cycles - old(cycles) && 0 < consumed <= budget + 23
        && (consumed >= budget || p.frameReady(dev))
    {
      hide Turn1;
      ghost var m := Value();
      if budget > 0 { BudgetRespected(k, p, m, budget, 0); }
      var left: nat := budget;
      consumed := 0;
      while left > 0
        invariant StepLoop(k, p, Value(), left, consumed) == StepLoop(k, p, m, budget, 0)
        decreases left
      {
        TurnAdvances(k, p, Value(), left);
        var before := cycles;
        var fine := TakeTurn(left);
        if !fine { return false, consumed; }
        var delta: nat := cycles - before;
        consumed := consumed + delta;
        left := if left > delta then left - delta else 0;
        if p.frameReady(dev) { return true, consumed; }
      }
      ok := true;
    }
  }
}
