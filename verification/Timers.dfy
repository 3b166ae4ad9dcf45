/**
 The timer block: a 16-bit divider advanced in chunks of at most four cycles, a counter that
 ticks on falling edges of one divider bit, and a reload four cycles after overflow. A period
 of 2^(k+1) cycles stands for bit k of the divider: the bit is set in the upper half of the
 period.
 */
module Timers {
  import opened Bytes
  import opened RingLayout
  import opened Arithmetic

  datatype TimaState = Running | OverflowPending | Reloading

  datatype Timer = Timer(div: nat, input: bool, state: TimaState, pending: Byte, delay: nat)

  /** The timer's registers and the writes the CPU has latched for it. `ticks` and `reloads` count
      increments of TIMA and reload interrupts; nothing reads them. */
  datatype Regs = Regs(
    div: bv8, tima: Byte, tma: Byte, tac: bv8, flags: bv8,
    divReset: bool, timaWrite: Option<Byte>, tmaWrite: Option<Byte>, tacWrite: Option<(bv8, bv8)>,
    ticks: nat, reloads: nat)

  datatype Sys = Sys(t: Timer, io: Regs)

  const DIV_LIMIT := 0x1_0000

  function PowerOn(): Timer {
    Timer(8, false, Running, 0, 0)
  }

  predicate Enabled(tac: bv8) {
    tac & 0x04 != 0
  }

  function Period(tac: bv8): (p: nat)
    ensures p == 16 || p == 64 || p == 256 || p == 1024
  {
    match tac & 0x03
    case 0 => 1024
    case 1 => 16
    case 2 => 64
    case _ => 256
  }

  /** The divider bit a period selects. */
  predicate Bit(div: nat, period: nat)
    requires period > 0
  {
    div % period >= period / 2
  }

  /** The signal whose falling edges TIMA counts. */
  predicate Signal(div: nat, tac: bv8) {
    Enabled(tac) && Bit(div, Period(tac))
  }

  /** Reads of TAC see the unused bits set. */
  function ReadTac(io: Regs): bv8 {
    io.tac | 0xF8
  }

  /** The interrupt flag register keeps its upper bits set. */
  function SetFlags(value: bv8): bv8 {
    (value & 0x1F) | 0xE0
  }

  // ----- What the CPU's writes latch -----

  function WriteDiv(io: Regs): Regs {
    io.(div := 0, divReset := true)
  }

  function WriteTima(io: Regs, value: Byte): Regs {
    io.(tima := value, timaWrite := Some(value))
  }

  function WriteTma(io: Regs, value: Byte): Regs {
    io.(tma := value, tmaWrite := Some(value))
  }

  function WriteTac(io: Regs, value: bv8): Regs {
    io.(tac := value & 0x07, tacWrite := Some((ReadTac(io), value & 0x07)))
  }

  predicate NoneLatched(io: Regs) {
    !io.divReset && io.timaWrite.None? && io.tmaWrite.None? && io.tacWrite.None?
  }

  // ----- The timer's operations on values -----

  function Increment(s: Sys): Sys {
    var io := s.io.(ticks := s.io.ticks + 1);
    if io.tima == 0xFF then
      Sys(s.t.(pending := io.tma, delay := 4, state := OverflowPending), io.(tima := 0))
    else Sys(s.t, io.(tima := io.tima + 1))
  }

  function TakeDivReset(s: Sys): Sys {
    if !s.io.divReset then s
    else
      var s1 := Sys(s.t.(div := 0), s.io.(divReset := false, div := 0));
      var input := Signal(0, ReadTac(s1.io));
      var s2 := if s.t.input && !input then Increment(s1) else s1;
      s2.(t := s2.t.(input := input))
  }

  function TakeTimaWrite(s: Sys): Sys {
    match s.io.timaWrite
    case None => s
    case Some(value) =>
      var io := s.io.(timaWrite := None);
      match s.t.state
      case Running => Sys(s.t, io.(tima := value))
      case OverflowPending => Sys(s.t.(state := Running, delay := 0), io.(tima := value))
      case Reloading => Sys(s.t, io.(tima := s.t.pending))
  }

  function TakeTmaWrite(s: Sys): Sys {
    match s.io.tmaWrite
    case None => s
    case Some(value) =>
      var io := s.io.(tmaWrite := None);
      Sys(s.t.(pending := value), if s.t.state == Reloading then io.(tima := value) else io)
  }

  function TakeTacWrite(s: Sys): Sys {
    match s.io.tacWrite
    case None => s
    case Some((old_, new_)) =>
      var s1 := s.(io := s.io.(tacWrite := None));
      var falls := Enabled(old_) && Bit(s.t.div, Period(old_))
                   && (!Enabled(new_) || !Bit(s.t.div, Period(new_)));
      var s2 := if falls then Increment(s1) else s1;
      s2.(t := s2.t.(input := Signal(s.t.div, new_)))
  }

  function ProcessWrites(s: Sys): Sys {
    TakeTacWrite(TakeTmaWrite(TakeTimaWrite(TakeDivReset(s))))
  }

  /** The part of the divider its register shows. */
  function HighByte(div: nat): bv8 {
    (div / 0x100 % 0x100) as bv8
  }

  function AdvanceState(s: Sys, cycles: nat): Sys {
    match s.t.state
    case Running => s
    case OverflowPending =>
      var delay := if s.t.delay > cycles then s.t.delay - cycles else 0;
      if delay > 0 then s.(t := s.t.(delay := delay))
      else Sys(s.t.(delay := 0, state := Reloading),
               s.io.(tima := s.t.pending, flags := SetFlags(s.io.flags | 0x04), reloads := s.io.reloads + 1))
    case Reloading => s.(t := s.t.(state := Running))
  }

  function ApplyDiv(s: Sys, delta: nat): Sys {
    if delta == 0 then s
    else
      var new_ := (s.t.div + delta) % DIV_LIMIT;
      var s1 := Sys(s.t.(div := new_), s.io.(div := HighByte(new_)));
      var tac := ReadTac(s1.io);
      var falls := Enabled(tac) && Bit(s.t.div, Period(tac)) && !Bit(new_, Period(tac));
      var s2 := if falls then Increment(s1) else s1;
      s2.(t := s2.t.(input := Signal(new_, tac)))
  }

  function Chunk(s: Sys, cycles: nat): Sys {
    ApplyDiv(AdvanceState(s, cycles), cycles)
  }

  /** Chunks of four cycles, the last one possibly shorter. */
  function Cycles(s: Sys, n: nat): Sys
    decreases n
  {
    if n == 0 then s
    else if n < 4 then Chunk(s, n)
    else Cycles(Chunk(s, 4), n - 4)
  }

  function Step(s: Sys, n: nat): Sys {
    Cycles(ProcessWrites(s), n)
  }

  // ----- Additivity -----

  /** A step may be split after a multiple of four cycles, in any timer state. */
  lemma {:induction false} CyclesAdd(s: Sys, a: nat, b: nat)
    requires a % 4 == 0
    ensures Cycles(s, a + b) == Cycles(Cycles(s, a), b)
    decreases a
  {
    hide Chunk, Cycles;
    CyclesUnfold(s, a);
    if a > 0 {
      CyclesUnfold(s, a + b);
      CyclesAdd(Chunk(s, 4), a - 4, b);
    }
  }

  lemma CyclesUnfold(s: Sys, n: nat)
    ensures n == 0 ==> Cycles(s, n) == s
    ensures n >= 4 ==> Cycles(s, n) == Cycles(Chunk(s, 4), n - 4)
  {
    hide Chunk;
  }

  lemma WritesAreTaken(s: Sys)
    ensures NoneLatched(ProcessWrites(s).io)
  {
    hide TakeDivReset, TakeTimaWrite, TakeTmaWrite, TakeTacWrite;
    var s1 := TakeDivReset(s);
    var s2 := TakeTimaWrite(s1);
    var s3 := TakeTmaWrite(s2);
    DivResetIsTaken(s);
    TimaWriteIsTaken(s1);
    TmaWriteIsTaken(s2);
    TacWriteIsTaken(s3);
  }

  lemma DivResetIsTaken(s: Sys)
    ensures !TakeDivReset(s).io.divReset
  {
    hide Signal, ReadTac;
  }

  lemma TimaWriteIsTaken(s: Sys)
    ensures var io := TakeTimaWrite(s).io;
      io.timaWrite.None? && io.divReset == s.io.divReset
  {
  }

  lemma TmaWriteIsTaken(s: Sys)
    ensures var io := TakeTmaWrite(s).io;
      io.tmaWrite.None? && io.divReset == s.io.divReset && io.timaWrite == s.io.timaWrite
  {
  }

  lemma TacWriteIsTaken(s: Sys)
    ensures var io := TakeTacWrite(s).io;
      && io.tacWrite.None? && io.divReset == s.io.divReset
      && io.timaWrite == s.io.timaWrite && io.tmaWrite == s.io.tmaWrite
  {
    hide Signal, Bit, Enabled;
  }

  lemma ChunkKeepsLatches(s: Sys, n: nat)
    requires NoneLatched(s.io)
    ensures NoneLatched(Chunk(s, n).io)
  {
    hide Signal, Bit, Enabled, SetFlags, HighByte;
  }

  lemma {:induction false} CyclesKeepLatches(s: Sys, n: nat)
    requires NoneLatched(s.io)
    ensures NoneLatched(Cycles(s, n).io)
    decreases n
  {
    hide Chunk, NoneLatched;
    if n >= 4 {
      ChunkKeepsLatches(s, 4);
      CyclesKeepLatches(Chunk(s, 4), n - 4);
    } else if n > 0 {
      ChunkKeepsLatches(s, n);
    }
  }

  lemma NothingToTake(s: Sys)
    requires NoneLatched(s.io)
    ensures ProcessWrites(s) == s
  {
  }

  /** Stepping a multiple of four cycles and then any number more is one step of the sum. */
  lemma StepAdds(s: Sys, a: nat, b: nat)
    requires a % 4 == 0
    ensures Step(Step(s, a), b) == Step(s, a + b)
  {
    hide Cycles, ProcessWrites, NoneLatched;
    var s1 := ProcessWrites(s);
    WritesAreTaken(s);
    CyclesKeepLatches(s1, a);
    NothingToTake(Cycles(s1, a));
    CyclesAdd(s1, a, b);
  }

  // ----- Runs -----

  /** What can happen to a timer: cycles pass, or the CPU writes one of its registers. */
  datatype Event = Passes(cycles: nat) | Div | Tima(value: Byte) | Tma(value: Byte) | Tac(control: bv8)

  function PowerOnSystem(): Sys {
    Sys(PowerOn(), Regs(0, 0, 0, 0, 0xE0, false, None, None, None, 0, 0))
  }

  function Happen(s: Sys, e: Event): Sys {
    match e
    case Passes(n) => Step(s, n)
    case Div => s.(io := WriteDiv(s.io))
    case Tima(value) => s.(io := WriteTima(s.io, value))
    case Tma(value) => s.(io := WriteTma(s.io, value))
    case Tac(control) => s.(io := WriteTac(s.io, control))
  }

  /** The timer and its registers after a history since power-on. */
  function Reached(history: seq<Event>): Sys {
    if history == [] then PowerOnSystem()
    else Happen(Reached(history[..|history| - 1]), history[|history| - 1])
  }

  // ----- The single edge rule -----

  /** The unused bits make no difference to the signal. */
  lemma ReadTacSignal(div: nat, io: Regs)
    ensures Signal(div, ReadTac(io)) == Signal(div, io.tac)
    ensures Enabled(ReadTac(io)) == Enabled(io.tac) && Period(ReadTac(io)) == Period(io.tac)
  {
    hide Bit;
    assert (io.tac | 0xF8) & 0x04 == io.tac & 0x04;
    assert (io.tac | 0xF8) & 0x03 == io.tac & 0x03;
  }

  /** The 16-bit divider wraps at a multiple of every period. */
  lemma BitWraps(div: nat, period: nat)
    requires period == 16 || period == 64 || period == 256 || period == 1024
    ensures Bit(div % DIV_LIMIT, period) == Bit(div, period)
  {
    assert div == div / DIV_LIMIT * DIV_LIMIT + div % DIV_LIMIT;
    WholePeriods(div / DIV_LIMIT, div % DIV_LIMIT, period);
  }

  function Falls(before: bool, after: bool): nat {
    if before && !after then 1 else 0
  }

  /** Falling edges over `n` single cycles of a divider that is never wrapped. */
  ghost function Edges(div: nat, tac: bv8, n: nat): nat {
    if n == 0 then 0
    else Edges(div, tac, n - 1) + Falls(Signal(div + n - 1, tac), Signal(div + n, tac))
  }

  /** The latched input is the signal. */
  predicate Settled(s: Sys) {
    s.t.input == Signal(s.t.div, s.io.tac) && s.t.div < DIV_LIMIT
  }

  /** At most one write of DIV or TAC waits since the input was last brought up to date under
      `tac`; writes of TIMA and TMA may wait too. */
  predicate OneWaiting(s: Sys, tac: bv8) {
    && s.t.div < DIV_LIMIT
    && s.t.input == Signal(s.t.div, tac)
    && (match s.io.tacWrite
        case None => Enabled(s.io.tac) == Enabled(tac) && Period(s.io.tac) == Period(tac)
        case Some((old_, new_)) =>
          !s.io.divReset && new_ == s.io.tac && Enabled(old_) == Enabled(tac) && Period(old_) == Period(tac))
  }

  /** Single writes to a settled timer leave exactly that situation. */
  lemma WritesWait(s: Sys, tima: Byte, tma: Byte, tac: bv8)
    requires Settled(s) && NoneLatched(s.io)
    ensures OneWaiting(s, s.io.tac)
    ensures OneWaiting(s.(io := WriteDiv(s.io)), s.io.tac)
    ensures OneWaiting(s.(io := WriteTima(s.io, tima)), s.io.tac)
    ensures OneWaiting(s.(io := WriteTma(s.io, tma)), s.io.tac)
    ensures OneWaiting(s.(io := WriteTac(s.io, tac)), s.io.tac)
    ensures OneWaiting(s.(io := WriteTima(WriteDiv(s.io), tima)), s.io.tac)
    ensures OneWaiting(s.(io := WriteTma(WriteTac(s.io, tac), tma)), s.io.tac)
  {
    hide Signal, Enabled, Period;
    ReadTacSignal(s.t.div, s.io);
  }

  /** What a DIV reset and a TAC write have in common: TIMA ticks exactly when the signal falls
      from its value before the write to its value after it, and the input then is the signal. */
  lemma WritesFollowSignal(s: Sys, tac: bv8)
    requires OneWaiting(s, tac)
    ensures var s' := ProcessWrites(s);
      && Settled(s') && s'.io.tac == s.io.tac
      && s'.t.div == (if s.io.divReset then 0 else s.t.div)
      && s'.io.ticks == s.io.ticks + Falls(Signal(s.t.div, tac), Signal(s'.t.div, s.io.tac))
  {
    hide TakeDivReset, TakeTimaWrite, TakeTmaWrite, TakeTacWrite, Bit, Period, Enabled;
    var s1 := TakeDivReset(s);
    DivResetFollowsSignal(s, tac);
    var s2 := TakeTimaWrite(s1);
    TimaWriteIsSilent(s1);
    var s3 := TakeTmaWrite(s2);
    TmaWriteIsSilent(s2);
    TacWriteFollowsSignal(s3, tac);
  }

  lemma DivResetFollowsSignal(s: Sys, tac: bv8)
    requires OneWaiting(s, tac)
    ensures var s' := TakeDivReset(s);
      && s'.io.tac == s.io.tac && s'.io.tacWrite == s.io.tacWrite
      && s'.t.div == (if s.io.divReset then 0 else s.t.div)
      && s'.t.input == (if s.io.divReset then Signal(0, s.io.tac) else s.t.input)
      && s'.io.ticks == s.io.ticks + (if s.io.divReset then Falls(Signal(s.t.div, tac), Signal(0, s.io.tac)) else 0)
  {
    hide Signal, Period, Enabled;
    ReadTacSignal(0, s.io);
    if s.io.divReset {
      assert ReadTac(s.io.(divReset := false, div := 0)) == ReadTac(s.io);
    }
  }

  lemma TimaWriteIsSilent(s: Sys)
    ensures var s' := TakeTimaWrite(s);
      && s'.io.tac == s.io.tac && s'.io.tacWrite == s.io.tacWrite && s'.io.ticks == s.io.ticks
      && s'.t.div == s.t.div && s'.t.input == s.t.input
  {
  }

  lemma TmaWriteIsSilent(s: Sys)
    ensures var s' := TakeTmaWrite(s);
      && s'.io.tac == s.io.tac && s'.io.tacWrite == s.io.tacWrite && s'.io.ticks == s.io.ticks
      && s'.t.div == s.t.div && s'.t.input == s.t.input
  {
  }

  lemma TacWriteFollowsSignal(s: Sys, tac: bv8)
    requires s.io.tacWrite.Some? ==>
      (s.io.tacWrite.value.1 == s.io.tac
       && Enabled(s.io.tacWrite.value.0) == Enabled(tac) && Period(s.io.tacWrite.value.0) == Period(tac))
    ensures var s' := TakeTacWrite(s);
      && s'.io.tac == s.io.tac && s'.t.div == s.t.div
      && s'.t.input == (if s.io.tacWrite.Some? then Signal(s.t.div, s.io.tac) else s.t.input)
      && s'.io.ticks == s.io.ticks
           + (if s.io.tacWrite.Some? then Falls(Signal(s.t.div, tac), Signal(s.t.div, s.io.tac)) else 0)
  {
    hide Bit, Period, Enabled;
  }

  /** An edge falls on the way to `x + 1` exactly when the period divides `x + 1`. */
  lemma EdgeAtMultiple(x: nat, tac: bv8)
    requires Enabled(tac)
    ensures Falls(Signal(x, tac), Signal(x + 1, tac)) == (x + 1) / Period(tac) - x / Period(tac)
  {
    hide Period, Enabled;
    DivSucc(x, Period(tac));
  }

  /** Counting edges cycle by cycle is counting multiples of the period. */
  lemma {:induction false} EdgesCount(div: nat, tac: bv8, n: nat)
    requires Enabled(tac)
    ensures Edges(div, tac, n) == (div + n) / Period(tac) - div / Period(tac)
  {
    hide Period, Enabled, Signal;
    if n > 0 {
      EdgesCount(div, tac, n - 1);
      EdgeAtMultiple(div + n - 1, tac);
    }
  }

  lemma {:induction false} NoEdgesDisabled(div: nat, tac: bv8, n: nat)
    requires !Enabled(tac)
    ensures Edges(div, tac, n) == 0
  {
    if n > 0 { NoEdgesDisabled(div, tac, n - 1); }
  }

  /** A chunk is too short to hide an edge: comparing its two ends finds all of them. */
  lemma ChunkEnds(div: nat, period: nat, delta: nat)
    requires period == 16 || period == 64 || period == 256 || period == 1024
    requires 0 < delta <= 4
    ensures Falls(Bit(div, period), Bit(div + delta, period)) == (div + delta) / period - div / period
  {
    DivNearby(div, period, delta);
  }

  lemma ApplyDivFollowsSignal(s: Sys, delta: nat)
    requires s.t.div < DIV_LIMIT && 0 < delta <= 4
    ensures var s' := ApplyDiv(s, delta);
      && s'.io.tac == s.io.tac && s'.t.div == (s.t.div + delta) % DIV_LIMIT
      && s'.t.input == Signal(s'.t.div, s.io.tac)
      && s'.io.ticks == s.io.ticks + Edges(s.t.div, s.io.tac, delta)
  {
    hide Period, Enabled, Bit, Edges, HighByte;
    var tac := s.io.tac;
    var new_ := (s.t.div + delta) % DIV_LIMIT;
    var io := s.io.(div := HighByte(new_));
    assert ReadTac(io) == ReadTac(s.io);
    ReadTacSignal(new_, s.io);
    if Enabled(tac) {
      ChunkEnds(s.t.div, Period(tac), delta);
      BitWraps(s.t.div + delta, Period(tac));
      EdgesCount(s.t.div, tac, delta);
    } else {
      NoEdgesDisabled(s.t.div, tac, delta);
    }
  }

  lemma AdvanceIsSilent(s: Sys, n: nat)
    ensures var s' := AdvanceState(s, n);
      s'.io.tac == s.io.tac && s'.io.ticks == s.io.ticks && s'.t.div == s.t.div && s'.t.input == s.t.input
  {
    hide SetFlags;
  }

  lemma {:induction false} EdgesAdd(div: nat, tac: bv8, a: nat, b: nat)
    ensures Edges(div, tac, a + b) == Edges(div, tac, a) + Edges(div + a, tac, b)
    decreases b
  {
    hide Signal;
    if b > 0 {
      EdgesAdd(div, tac, a, b - 1);
      assert div + a + b - 1 == div + (a + b) - 1;
    }
  }

  /** The wrapped divider shows the same edges. */
  lemma EdgesWrap(div: nat, tac: bv8, n: nat)
    ensures Edges(div % DIV_LIMIT, tac, n) == Edges(div, tac, n)
  {
    hide Edges;
    if Enabled(tac) {
      EdgesCount(div, tac, n);
      EdgesCount(div % DIV_LIMIT, tac, n);
      WrapQuotients(div, n, Period(tac));
    } else {
      NoEdgesDisabled(div, tac, n);
      NoEdgesDisabled(div % DIV_LIMIT, tac, n);
    }
  }

  lemma WrapQuotients(div: nat, n: nat, period: nat)
    requires period == 16 || period == 64 || period == 256 || period == 1024
    ensures (div % DIV_LIMIT + n) / period - (div % DIV_LIMIT) / period == (div + n) / period - div / period
  {
    var k, low := div / DIV_LIMIT, div % DIV_LIMIT;
    assert div == k * DIV_LIMIT + low;
    WholePeriods(k, low, period);
    WholePeriods(k, low + n, period);
  }

  /** Whole turns of the divider add a fixed number of periods. */
  lemma WholePeriods(k: nat, x: nat, period: nat)
    requires period == 16 || period == 64 || period == 256 || period == 1024
    ensures (k * DIV_LIMIT + x) / period == k * (DIV_LIMIT / period) + x / period
    ensures (k * DIV_LIMIT + x) % period == x % period
  {
    var per := if period == 16 then 4096 else if period == 64 then 1024 else if period == 256 then 256 else 64;
    assert per * period == DIV_LIMIT && DIV_LIMIT / period == per;
    Factor(k, per, period);
    DivAddsMultiple(k * per, period, x);
  }

  lemma Factor(k: nat, a: nat, b: nat)
    ensures k * (a * b) == k * a * b
  {
  }

  /** The edge rule over a whole step: however the cycles are chunked, TIMA ticks once for every
      falling edge a cycle-by-cycle divider shows, across the wrap of the divider. */
  lemma {:induction false} CyclesFollowSignal(s: Sys, n: nat)
    requires Settled(s)
    ensures var s' := Cycles(s, n);
      && Settled(s') && s'.io.tac == s.io.tac && s'.t.div == (s.t.div + n) % DIV_LIMIT
      && s'.io.ticks == s.io.ticks + Edges(s.t.div, s.io.tac, n)
    decreases n
  {
    hide AdvanceState, ApplyDiv, Signal, Edges;
    if n > 0 {
      var m := if n < 4 then n else 4;
      AdvanceIsSilent(s, m);
      ApplyDivFollowsSignal(AdvanceState(s, m), m);
      var s1 := Chunk(s, m);
      if n < 4 {
        assert Cycles(s, n) == s1;
      } else {
        CyclesFollowSignal(s1, n - 4);
        EdgesAdd(s.t.div, s.io.tac, 4, n - 4);
        EdgesWrap(s.t.div + 4, s.io.tac, n - 4);
        WrapAdds(s.t.div, 4, n - 4);
      }
    } else {
      assert Edges(s.t.div, s.io.tac, 0) == 0 by { NoEdgesYet(s.t.div, s.io.tac); }
    }
  }

  lemma NoEdgesYet(div: nat, tac: bv8)
    ensures Edges(div, tac, 0) == 0
  {
  }

  lemma WrapAdds(div: nat, a: nat, b: nat)
    ensures ((div + a) % DIV_LIMIT + b) % DIV_LIMIT == (div + a + b) % DIV_LIMIT
  {
  }

  /** All three places where TIMA ticks obey one rule: over a step with at most one DIV or TAC
      write waiting, the ticks are the falling edge at the write plus the falling edges of the
      cycles, and afterwards the input again is the signal. */
  lemma SingleEdgeRule(s: Sys, tac: bv8, n: nat)
    requires OneWaiting(s, tac)
    ensures var s' := Step(s, n);
      var div := if s.io.divReset then 0 else s.t.div;
      && Settled(s') && NoneLatched(s'.io)
      && s'.io.ticks == s.io.ticks + Falls(Signal(s.t.div, tac), Signal(div, s.io.tac)) + Edges(div, s.io.tac, n)
  {
    hide ProcessWrites, Cycles, Signal, Edges, NoneLatched, OneWaiting;
    WritesFollowSignal(s, tac);
    WritesAreTaken(s);
    CyclesFollowSignal(ProcessWrites(s), n);
    CyclesKeepLatches(ProcessWrites(s), n);
  }
}
