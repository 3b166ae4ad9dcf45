/**
 The timer as the emulator keeps it: a block of counters stepped against a bus that latches the
 CPU's register writes. Its loops compute the timer's step function.
 */
module TimerDevice {
  import opened Bytes
  import opened RingLayout
  import opened Arithmetic
  import T = Timers

  /** The timer's side of the bus: registers and latched writes. */
  class TimerBus {
    var div: bv8
    var tima: Byte
    var tma: Byte
    var tac: bv8
    var flags: bv8
    var divReset: bool
    var timaWrite: Option<Byte>
    var tmaWrite: Option<Byte>
    var tacWrite: Option<(bv8, bv8)>
    ghost var ticks: nat
    ghost var reloads: nat

    ghost function Regs(): T.Regs
      reads this
    {
      T.Regs(div, tima, tma, tac, flags, divReset, timaWrite, tmaWrite, tacWrite, ticks, reloads)
    }

    constructor ()
      ensures T.NoneLatched(Regs())
      ensures Regs() == T.PowerOnSystem().io
    {
      div, tima, tma, tac, flags := 0, 0, 0, 0, 0xE0;
      divReset, timaWrite, tmaWrite, tacWrite := false, None, None, None;
      ticks, reloads := 0, 0;
    }

    /** A CPU write to the divider latches a reset whatever the value. */
    method CpuWritesDiv(value: Byte)
      modifies this
      ensures Regs() == T.WriteDiv(old(Regs()))
    {
      div := 0;
      divReset := true;
    }

    method CpuWritesTima(value: Byte)
      modifies this
      ensures Regs() == T.WriteTima(old(Regs()), value)
    {
      tima := value;
      timaWrite := Some(value);
    }

    method CpuWritesTma(value: Byte)
      modifies this
      ensures Regs() == T.WriteTma(old(Regs()), value)
    {
      tma := value;
      tmaWrite := Some(value);
    }

    method CpuWritesTac(value: bv8)
      modifies this
      ensures Regs() == T.WriteTac(old(Regs()), value)
    {
      var masked := value & 0x07;
      var previous := ReadTac();
      tac := masked;
      tacWrite := Some((previous, masked));
    }

    method TakeDivReset() returns (pending: bool)
      modifies this
      ensures pending == old(divReset)
      ensures Regs() == old(Regs()).(divReset := false)
    {
      pending := divReset;
      if pending { divReset := false; }
    }

    method TakeTimaWrite() returns (write: Option<Byte>)
      modifies this
      ensures write == old(timaWrite)
      ensures Regs() == old(Regs()).(timaWrite := None)
    {
      write := timaWrite;
      timaWrite := None;
    }

    method TakeTmaWrite() returns (write: Option<Byte>)
      modifies this
      ensures write == old(tmaWrite)
      ensures Regs() == old(Regs()).(tmaWrite := None)
    {
      write := tmaWrite;
      tmaWrite := None;
    }

    method TakeTacWrite() returns (write: Option<(bv8, bv8)>)
      modifies this
      ensures write == old(tacWrite)
      ensures Regs() == old(Regs()).(tacWrite := None)
    {
      write := tacWrite;
      tacWrite := None;
    }

    function ReadTac(): bv8
      reads this
    {
      tac | 0xF8
    }

    method WriteIf(value: bv8)
      modifies this
      ensures Regs() == old(Regs()).(flags := T.SetFlags(value))
    {
      flags := (value & 0x1F) | 0xE0;
    }
  }

  /** The bit position TAC selects, as the value of that bit. */
  function TriggerBit(tac: bv8): (bit: nat)
    ensures 2 * bit == T.Period(tac)
  {
    match tac & 0x03
    case 0 => 512
    case 1 => 8
    case 2 => 32
    case _ => 128
  }

  /** Masking one bit of the divider asks for the upper half of twice its value. */
  lemma MaskIsHalf(div: nat, bit: nat)
    requires bit > 0
    ensures div / bit % 2 == 1 <==> T.Bit(div, 2 * bit)
  {
    var q, r := div / (2 * bit), div % (2 * bit);
    assert div == q * (2 * bit) + r;
    T.Factor(q, 2, bit);
    assert div == 2 * q * bit + r;
    HalfQuotient(2 * q, r, bit);
  }

  lemma HalfQuotient(q: nat, r: nat, bit: nat)
    requires r < 2 * bit
    ensures (q * bit + r) / bit == if r < bit then q else q + 1
  {
    DivAddsMultiple(q, bit, r);
    if r < bit { QuotientIs(r, 0, bit, r); } else { QuotientIs(r, 1, bit, r - bit); }
  }

  class TimerBlock {
    var divCounter: nat
    var timerInput: bool
    var timaState: T.TimaState
    var pendingReload: Byte
    var reloadDelay: nat

    ghost function Value(): T.Timer
      reads this
    {
      T.Timer(divCounter, timerInput, timaState, pendingReload, reloadDelay)
    }

    ghost function System(io: TimerBus): T.Sys
      reads this, io
    {
      T.Sys(Value(), io.Regs())
    }

    constructor ()
      ensures Value() == T.PowerOn()
    {
      divCounter, timerInput, timaState, pendingReload, reloadDelay := 8, false, T.Running, 0, 0;
    }

    /** Whether the bit TAC selects is set in the divider. */
    method Selected(tac: bv8) returns (set_: bool)
      ensures set_ == T.Bit(divCounter, T.Period(tac))
    {
      var bit := TriggerBit(tac);
      MaskIsHalf(divCounter, bit);
      set_ := divCounter / bit % 2 == 1;
    }

    method ComputeTimerInput(tac: bv8) returns (input: bool)
      ensures input == T.Signal(divCounter, tac)
    {
      if tac & 0x04 == 0 {
        input := false;
      } else {
        input := Selected(tac);
      }
    }

    method IncrementTima(io: TimerBus)
      modifies this, io
      ensures System(io) == T.Increment(old(System(io)))
    {
      io.ticks := io.ticks + 1;
      if io.tima == 0xFF {
        io.tima := 0;
        pendingReload := io.tma;
        reloadDelay := 4;
        timaState := T.OverflowPending;
      } else {
        io.tima := io.tima + 1;
      }
    }

    method ProcessDivReset(io: TimerBus)
      modifies this, io
      ensures System(io) == T.TakeDivReset(old(System(io)))
    {
      hide T.Increment, T.Signal;
      var taken := io.TakeDivReset();
      if taken {
        var before := timerInput;
        divCounter := 0;
        io.div := 0;
        var input := ComputeTimerInput(io.ReadTac());
        if before && !input {
          IncrementTima(io);
        }
        timerInput := input;
      }
    }

    method ProcessTimaWrite(io: TimerBus)
      modifies this, io
      ensures System(io) == T.TakeTimaWrite(old(System(io)))
    {
      var write := io.TakeTimaWrite();
      match write {
        case None =>
        case Some(value) =>
          match timaState {
            case Running => io.tima := value;
            case OverflowPending =>
              io.tima := value;
              timaState := T.Running;
              reloadDelay := 0;
            case Reloading => io.tima := pendingReload;
          }
      }
    }

    method ProcessTmaWrite(io: TimerBus)
      modifies this, io
      ensures System(io) == T.TakeTmaWrite(old(System(io)))
    {
      var write := io.TakeTmaWrite();
      match write {
        case None =>
        case Some(value) =>
          pendingReload := value;
          if timaState == T.Reloading { io.tima := value; }
      }
    }

    method ProcessTacWrite(io: TimerBus)
      modifies this, io
      ensures System(io) == T.TakeTacWrite(old(System(io)))
    {
      hide T.Signal, T.Bit, T.Period;
      var write := io.TakeTacWrite();
      match write {
        case None =>
        case Some((oldTac, newTac)) =>
          if oldTac & 0x04 != 0 {
            var was := Selected(oldTac);
            var is_ := Selected(newTac);
            if was && (newTac & 0x04 == 0 || !is_) {
              IncrementTima(io);
            }
          }
          timerInput := ComputeTimerInput(newTac);
      }
    }

    /** Consumes what the CPU latched since the last step. */
    method ProcessRegisterWrites(io: TimerBus)
      modifies this, io
      ensures System(io) == T.ProcessWrites(old(System(io)))
    {
      hide T.TakeDivReset, T.TakeTimaWrite, T.TakeTmaWrite, T.TakeTacWrite;
      ProcessDivReset(io);
      ProcessTimaWrite(io);
      ProcessTmaWrite(io);
      ProcessTacWrite(io);
    }

    method AdvanceTimaState(cycles: nat, io: TimerBus)
      modifies this, io
      ensures System(io) == T.AdvanceState(old(System(io)), cycles)
    {
      match timaState {
        case Running =>
        case OverflowPending =>
          if reloadDelay > 0 {
            reloadDelay := if reloadDelay > cycles then reloadDelay - cycles else 0;
          }
          if reloadDelay == 0 {
            io.tima := pendingReload;
            io.WriteIf(io.flags | 0x04);
            timaState := T.Reloading;
            io.reloads := io.reloads + 1;
          }
        case Reloading => timaState := T.Running;
      }
    }

    method ApplyDivIncrement(delta: nat, io: TimerBus)
      requires divCounter < T.DIV_LIMIT
      modifies this, io
      ensures System(io) == T.ApplyDiv(old(System(io)), delta)
    {
      hide T.Signal, T.Bit, T.Period, T.HighByte;
      if delta == 0 { return; }
      var tac := io.ReadTac();
      var was := Selected(tac);
      divCounter := (divCounter + delta) % T.DIV_LIMIT;
      io.div := T.HighByte(divCounter);
      var is_ := Selected(tac);
      if tac & 0x04 != 0 {
        if was && !is_ {
          IncrementTima(io);
        }
      }
      timerInput := ComputeTimerInput(tac);
    }

    /** A step consumes the latched writes and then advances in chunks of at most four cycles. */
    method Step(cycles: nat, io: TimerBus)
      requires divCounter < T.DIV_LIMIT
      modifies this, io
      ensures System(io) == T.Step(old(System(io)), cycles)
      ensures divCounter < T.DIV_LIMIT
    {
      hide T.ProcessWrites, T.AdvanceState, T.ApplyDiv;
      ghost var s := System(io);
      ProcessRegisterWrites(io);
      DividerStaysLow(s);
      var remaining := cycles;
      while remaining > 0
        invariant 0 <= remaining <= cycles && divCounter < T.DIV_LIMIT
        invariant T.Cycles(System(io), remaining) == T.Step(s, cycles)
      {
        var step := if remaining < 4 then remaining else 4;
        ghost var before := System(io);
        AdvanceTimaState(step, io);
        AdvanceKeepsDivider(before, step);
        ApplyDivIncrement(step, io);
        ApplyDivStaysLow(T.AdvanceState(before, step), step);
        remaining := remaining - step;
      }
    }
  }

  /** A history since power-on, event by event. */
  method Replay(history: seq<T.Event>) returns (block: TimerBlock, io: TimerBus)
    ensures block.System(io) == T.Reached(history)
  {
    hide T.Step, T.WriteTac;
    block := new TimerBlock();
    io := new TimerBus();
    var i := 0;
    while i < |history|
      invariant 0 <= i <= |history| && fresh(block) && fresh(io)
      invariant block.divCounter < T.DIV_LIMIT && block.System(io) == T.Reached(history[..i])
    {
      assert history[..i + 1][..i] == history[..i];
      match history[i] {
        case Passes(n) => block.Step(n, io);
        case Div => io.CpuWritesDiv(0);
        case Tima(value) => io.CpuWritesTima(value);
        case Tma(value) => io.CpuWritesTma(value);
        case Tac(control) => io.CpuWritesTac(control);
      }
      i := i + 1;
    }
    assert history[..i] == history;
  }

  lemma DividerStaysLow(s: T.Sys)
    requires s.t.div < T.DIV_LIMIT
    ensures T.ProcessWrites(s).t.div < T.DIV_LIMIT
  {
    hide T.Signal, T.Bit, T.Period, T.ReadTac;
  }

  lemma AdvanceKeepsDivider(s: T.Sys, n: nat)
    ensures T.AdvanceState(s, n).t.div == s.t.div
  {
  }

  lemma ApplyDivStaysLow(s: T.Sys, n: nat)
    requires s.t.div < T.DIV_LIMIT
    ensures T.ApplyDiv(s, n).t.div < T.DIV_LIMIT
  {
    hide T.Signal, T.Bit, T.Period, T.ReadTac, T.HighByte;
  }
}
