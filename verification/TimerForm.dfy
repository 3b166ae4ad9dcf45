/**
 The timer in closed form: with no register written, the whole timer state after any multiple of
 four cycles is an arithmetic function of the starting state, whatever that state is.
 */
module TimerForm {
  import opened Bytes
  import opened Arithmetic
  import opened Timers

  // ----- Counting with reload -----

  /** TIMA after `k` ticks from `tima`, each overflow starting again at `tma`. */
  function Value(tima: Byte, tma: Byte, k: nat): nat {
    if tima + k < 0x100 then tima + k else tma + (tima + k - 0x100) % (0x100 - tma)
  }

  /** Overflows among the first `k` ticks. */
  function Overflows(tima: Byte, tma: Byte, k: nat): nat {
    if tima + k < 0x100 then 0 else 1 + (tima + k - 0x100) / (0x100 - tma)
  }

  /** One more tick overflows exactly from 0xFF, and then the count starts again at `tma`. */
  lemma NextTick(tima: Byte, tma: Byte, k: nat)
    ensures Value(tima, tma, k) <= 0xFF
    ensures Value(tima, tma, k) == 0xFF ==>
      Value(tima, tma, k + 1) == tma && Overflows(tima, tma, k + 1) == Overflows(tima, tma, k) + 1
    ensures Value(tima, tma, k) != 0xFF ==>
      Value(tima, tma, k + 1) == Value(tima, tma, k) + 1 && Overflows(tima, tma, k + 1) == Overflows(tima, tma, k)
  {
    var c := 0x100 - tma;
    if tima + k >= 0x100 {
      DivSucc(tima + k - 0x100, c);
    } else if tima + k == 0xFF {
      QuotientIs(0, 0, c, 0);
    }
  }

  // ----- Ticks -----

  /** Ticks in the first `n` cycles from divider value `div`. */
  function Ticks(div: nat, period: nat, n: nat): int
    requires period > 0
  {
    (div + n) / period - div / period
  }

  /** A chunk holds at most one tick, and ticks are at least four chunks apart. */
  lemma TicksAreSparse(div: nat, period: nat, n: nat)
    requires period >= 16
    ensures 0 <= Ticks(div, period, n) <= Ticks(div, period, n + 4) <= Ticks(div, period, n) + 1
    ensures Ticks(div, period, n + 4) > Ticks(div, period, n) ==>
      && Ticks(div, period, n + 8) == Ticks(div, period, n + 4)
      && Ticks(div, period, n + 12) == Ticks(div, period, n + 4)
  {
    var x := div + n;
    DivNearby(x, period, 4);
    DivNearby(x, period, 8);
    DivNearby(x, period, 12);
    Monotone(div, period, n);
  }

  lemma Monotone(x: nat, period: nat, n: nat)
    requires period > 0
    ensures (x + n) / period >= x / period
  {
    var q, r := x / period, x % period;
    assert x == q * period + r;
    DivAddsMultiple(q, period, r + n);
  }

  // ----- The state after n cycles -----

  /** The tick count after n cycles, by starting state. */
  function Count(s: Sys, n: nat): (k: nat) {
    var k := Ticks(s.t.div, Period(s.io.tac), n);
    if !Enabled(s.io.tac) || k < 0 then 0 else k
  }

  function OverflowCount(s: Sys, n: nat): nat {
    Overflows(s.io.tima, s.io.tma, Count(s, n))
  }

  /** The chunk that ends after n cycles overflowed TIMA. */
  predicate JustOverflowed(s: Sys, n: nat) {
    n >= 4 && OverflowCount(s, n) > OverflowCount(s, n - 4)
  }

  predicate Starts(s: Sys) {
    s.t.state == Running && s.t.div < DIV_LIMIT
  }

  /** The state with `ticks` ticks behind it and `over` overflows, the last of them `phase`
      chunks ago. */
  function Shape(s: Sys, n: nat, k: nat, over: nat, phase: TimaState): Sys {
    var div := (s.t.div + n) % DIV_LIMIT;
    var served := if phase.OverflowPending? && over > 0 then over - 1 else over;
    var v := Value(s.io.tima, s.io.tma, k);
    Sys(
      Timer(div, if n == 0 then s.t.input else Signal(div, s.io.tac), phase,
            if over > 0 then s.io.tma else s.t.pending,
            if phase.OverflowPending? then 4 else if over > 0 then 0 else s.t.delay),
      s.io.(
        div := if n == 0 then s.io.div else HighByte(div),
        tima := if phase.OverflowPending? then 0 else if v <= 0xFF then v else 0,
        flags := if served > 0 then SetFlags(s.io.flags | 0x04) else s.io.flags,
        ticks := s.io.ticks + k,
        reloads := s.io.reloads + served))
  }

  /** The timer after `n` cycles: TIMA is pending for one chunk after an overflow, reloading for
      the next, and counting otherwise. */
  function After(s: Sys, n: nat): Sys {
    Shape(s, n, Count(s, n), OverflowCount(s, n), PhaseAfter(s, n))
  }

  function PhaseAfter(s: Sys, n: nat): TimaState {
    if JustOverflowed(s, n) then OverflowPending
    else if n >= 4 && JustOverflowed(s, n - 4) then Reloading
    else Running
  }

  // ----- One chunk -----

  lemma CountSparse(s: Sys, n: nat)
    ensures Count(s, n) <= Count(s, n + 4) <= Count(s, n) + 1
    ensures Count(s, n) == if Enabled(s.io.tac) then Ticks(s.t.div, Period(s.io.tac), n) else 0
    ensures Count(s, n + 4) > Count(s, n) ==> Count(s, n + 8) == Count(s, n + 4) == Count(s, n + 12)
  {
    hide Ticks, Period;
    var p := Period(s.io.tac);
    TicksAreSparse(s.t.div, p, n);
    TicksAreSparse(s.t.div, p, n + 4);
    TicksAreSparse(s.t.div, p, n + 8);
  }

  /** The divider part of a chunk on any state that shares divider and TAC with the shape. */
  lemma ChunkFalls(s: Sys, n: nat)
    requires Starts(s)
    ensures var old_, new_ := (s.t.div + n) % DIV_LIMIT, (s.t.div + n + 4) % DIV_LIMIT;
      && new_ == (old_ + 4) % DIV_LIMIT
      && Falls(Signal(old_, s.io.tac), Signal(new_, s.io.tac)) == Count(s, n + 4) - Count(s, n)
  {
    hide Bit, Period, Enabled, Count;
    var p := Period(s.io.tac);
    WrapAdds(s.t.div, n, 4);
    BitWraps(s.t.div + n, p);
    BitWraps(s.t.div + n + 4, p);
    ChunkEnds(s.t.div + n, p, 4);
    CountSparse(s, n);
    CountSparse(s, n + 4);
  }

  /** What the divider step does to a state of the shape at `n`, tick or no tick. */
  lemma ApplyDivIs(x: Sys, falls: bool, input: bool)
    requires x.t.div < DIV_LIMIT
    requires var new_ := (x.t.div + 4) % DIV_LIMIT;
      && input == Signal(new_, x.io.tac)
      && falls == (Falls(Signal(x.t.div, x.io.tac), input) == 1)
    ensures var new_ := (x.t.div + 4) % DIV_LIMIT;
      var y := Sys(x.t.(div := new_), x.io.(div := HighByte(new_)));
      var z := if falls then Increment(y) else y;
      ApplyDiv(x, 4) == z.(t := z.t.(input := input))
  {
    hide Bit, Enabled, Period, Increment, HighByte;
    var new_ := (x.t.div + 4) % DIV_LIMIT;
    var io := x.io.(div := HighByte(new_));
    assert ReadTac(io) == ReadTac(x.io);
    ReadTacSignal(new_, x.io);
    ReadTacSignal(x.t.div, x.io);
  }

  /** From a running state, a chunk either ticks or not. */
  lemma RunningChunk(s: Sys, n: nat, k: nat, k': nat)
    requires Starts(s) && k == Count(s, n) && k' == Count(s, n + 4)
    ensures var over, over' := Overflows(s.io.tima, s.io.tma, k), Overflows(s.io.tima, s.io.tma, k');
      && Chunk(Shape(s, n, k, over, Running), 4)
         == Shape(s, n + 4, k', over', if over' > over then OverflowPending else Running)
      && over <= over'
  {
    hide Count, Signal, Overflows, Value, Starts, SetFlags, ReadTac, Enabled, HighByte;
    ChunkFalls(s, n);
    CountSparse(s, n);
    NextTick(s.io.tima, s.io.tma, k);
    var x := Shape(s, n, k, Overflows(s.io.tima, s.io.tma, k), Running);
    ApplyDivIs(x, k' == k + 1, Signal((x.t.div + 4) % DIV_LIMIT, s.io.tac));
  }

  /** The chunk after an overflow reloads TIMA and raises the interrupt. */
  lemma PendingChunk(s: Sys, n: nat, k: nat, over: nat)
    requires Starts(s) && k == Count(s, n) == Count(s, n + 4)
    requires over > 0 && Value(s.io.tima, s.io.tma, k) == s.io.tma
    ensures Chunk(Shape(s, n, k, over, OverflowPending), 4) == Shape(s, n + 4, k, over, Reloading)
  {
    hide Count, Signal, Value, Starts, ReadTac, Enabled, Increment, HighByte;
    ChunkFalls(s, n);
    var x := AdvanceState(Shape(s, n, k, over, OverflowPending), 4);
    ApplyDivIs(x, false, Signal((x.t.div + 4) % DIV_LIMIT, s.io.tac));
  }

  lemma ReloadingChunk(s: Sys, n: nat, k: nat, over: nat)
    requires Starts(s) && k == Count(s, n) == Count(s, n + 4)
    requires over > 0
    ensures Chunk(Shape(s, n, k, over, Reloading), 4) == Shape(s, n + 4, k, over, Running)
  {
    hide Count, Signal, Value, Starts, ReadTac, Enabled, Increment, SetFlags, HighByte;
    ChunkFalls(s, n);
    var x := AdvanceState(Shape(s, n, k, over, Reloading), 4);
    ApplyDivIs(x, false, Signal((x.t.div + 4) % DIV_LIMIT, s.io.tac));
  }

  lemma OverflowIsATick(s: Sys, n: nat)
    requires JustOverflowed(s, n + 4)
    ensures Count(s, n + 4) == Count(s, n) + 1
    ensures Value(s.io.tima, s.io.tma, Count(s, n + 4)) == s.io.tma
    ensures OverflowCount(s, n + 4) > 0
  {
    hide Count, Value, Overflows;
    CountSparse(s, n);
    NextTick(s.io.tima, s.io.tma, Count(s, n));
  }

  /** A chunk takes the closed form at `n` to the closed form at `n + 4`. */
  lemma NextAfter(s: Sys, n: nat)
    requires Starts(s) && n % 4 == 0
    ensures Chunk(After(s, n), 4) == After(s, n + 4)
  {
    hide Count, Overflows, Value, Shape, Starts, Chunk;
    CountSparse(s, n);
    if JustOverflowed(s, n) {
      OverflowIsATick(s, n - 4);
      CountSparse(s, n - 4);
      PendingChunk(s, n, Count(s, n), OverflowCount(s, n));
    } else if n >= 4 && JustOverflowed(s, n - 4) {
      OverflowIsATick(s, n - 8);
      CountSparse(s, n - 8);
      ReloadingChunk(s, n, Count(s, n), OverflowCount(s, n));
    } else {
      RunningChunk(s, n, Count(s, n), Count(s, n + 4));
    }
  }

  lemma AfterNothing(s: Sys)
    requires Starts(s)
    ensures After(s, 0) == s
  {
    assert Count(s, 0) == 0;
  }

  /** The closed form from a running timer: for every TAC, across every wrap of the divider, the loop
      over any multiple of four cycles computes it. */
  lemma {:induction false} RunningForm(s: Sys, n: nat)
    requires Starts(s) && n % 4 == 0
    ensures Cycles(s, n) == After(s, n)
    decreases n
  {
    hide Chunk, After, Starts, Cycles;
    if n == 0 {
      AfterNothing(s);
      CyclesUnfold(s, 0);
    } else {
      RunningForm(s, n - 4);
      CyclesAdd(s, n - 4, 4);
      NextAfter(s, n - 4);
      CyclesUnfold(Cycles(s, n - 4), 4);
      CyclesUnfold(Chunk(Cycles(s, n - 4), 4), 0);
    }
  }

  // ----- Any start -----

  /** A pending reload is due within a chunk: so in every state the timer reaches. */
  predicate Waiting(s: Sys) {
    s.t.delay <= 4 && s.t.div < DIV_LIMIT
  }

  /** The running timer that a waiting or reloading one becomes: the reload is made at once. */
  function Begun(s: Sys): Sys {
    match s.t.state
    case Running => s
    case Reloading => s.(t := s.t.(state := Running))
    case OverflowPending =>
      Sys(s.t.(state := Running, delay := 0),
          s.io.(tima := s.t.pending, flags := SetFlags(s.io.flags | 0x04), reloads := s.io.reloads + 1))
  }

  /** The timer after `n` cycles from any start; one chunk after a pending overflow it is reloading. */
  function AfterAny(s: Sys, n: nat): Sys {
    var s' := After(Begun(s), n);
    if n == 0 then s
    else if n == 4 && s.t.state.OverflowPending? && s'.t.state.Running? then s'.(t := s'.t.(state := Reloading))
    else s'
  }

  /** Reloading and running differ only until the next tick or the next chunk. */
  lemma ReloadingIsRunning(s: Sys, cycles: nat)
    requires s.t.state.Running? && cycles > 0
    ensures var (x, y) := (ApplyDiv(s, cycles), ApplyDiv(s.(t := s.t.(state := Reloading)), cycles));
      y == if x.t.state.Running? then x.(t := x.t.(state := Reloading)) else x
  {
    hide Signal, Bit, Enabled, ReadTac, HighByte;
  }

  lemma BegunStarts(s: Sys)
    requires Waiting(s)
    ensures Starts(Begun(s))
  {
    hide SetFlags;
  }

  /** What the first chunk makes of a start that is not running. */
  lemma FirstChunk(s: Sys)
    requires Waiting(s)
    ensures var x := Chunk(Begun(s), 4);
      Chunk(s, 4) == if s.t.state.OverflowPending? && x.t.state.Running? then x.(t := x.t.(state := Reloading)) else x
  {
    hide ApplyDiv, SetFlags;
    ReloadingIsRunning(Begun(s), 4);
  }

  /** A reloading state is a running one as far as the next chunk is concerned. */
  lemma ReloadingChunks(s: Sys, n: nat)
    requires s.t.state.Running? && n >= 4
    ensures Cycles(s.(t := s.t.(state := Reloading)), n) == Cycles(s, n)
  {
    hide ApplyDiv, Cycles;
    CyclesUnfold(s, n);
    CyclesUnfold(s.(t := s.t.(state := Reloading)), n);
  }

  /** The closed form: the loop over any multiple of four cycles computes it from every state. */
  lemma ClosedForm(s: Sys, n: nat)
    requires Waiting(s) && n % 4 == 0
    ensures Cycles(s, n) == AfterAny(s, n)
  {
    hide Chunk, After, Cycles, Begun, Waiting, Starts;
    CyclesUnfold(s, n);
    if n > 0 {
      var b := Begun(s);
      BegunStarts(s);
      RunningForm(b, n);
      FirstChunk(s);
      CyclesUnfold(b, n);
      CyclesUnfold(Chunk(s, 4), n - 4);
      CyclesUnfold(Chunk(b, 4), n - 4);
      if n > 4 && Chunk(b, 4).t.state.Running? { ReloadingChunks(Chunk(b, 4), n - 4); }
    }
  }

  /** No step leaves a longer wait than one chunk, whatever was written. */
  lemma StepKeepsWaiting(s: Sys, n: nat)
    requires Waiting(s)
    ensures Waiting(Step(s, n))
  {
    hide Cycles, TakeDivReset, TakeTimaWrite, TakeTmaWrite, TakeTacWrite, Waiting;
    WritesKeepWaiting(s);
    WritesKeepWaiting(TakeDivReset(s));
    WritesKeepWaiting(TakeTimaWrite(TakeDivReset(s)));
    WritesKeepWaiting(TakeTmaWrite(TakeTimaWrite(TakeDivReset(s))));
    CyclesKeepWaiting(ProcessWrites(s), n);
  }

  lemma WritesKeepWaiting(s: Sys)
    requires Waiting(s)
    ensures Waiting(TakeDivReset(s)) && Waiting(TakeTimaWrite(s))
    ensures Waiting(TakeTmaWrite(s)) && Waiting(TakeTacWrite(s))
  {
    hide Signal, Bit, Enabled, ReadTac, Period;
  }

  lemma {:induction false} CyclesKeepWaiting(s: Sys, n: nat)
    requires Waiting(s)
    ensures Waiting(Cycles(s, n))
    decreases n
  {
    hide Chunk, Waiting;
    if n >= 4 {
      ChunkKeepsWaiting(s, 4);
      CyclesKeepWaiting(Chunk(s, 4), n - 4);
    } else if n > 0 {
      ChunkKeepsWaiting(s, n);
    }
  }

  lemma ChunkKeepsWaiting(s: Sys, n: nat)
    requires Waiting(s)
    ensures Waiting(Chunk(s, n))
  {
    hide Signal, Bit, Enabled, ReadTac, Period, SetFlags, HighByte;
  }

  /** What the closed form says of the registers: the divider, the number of ticks, TIMA, and one
      timer interrupt per overflow, four cycles late. A reload the step begins with is made first. */
  lemma RegistersAfter(s: Sys, n: nat)
    requires Waiting(s) && NoneLatched(s.io) && n % 4 == 0 && n > 0
    ensures var p, k, s' := Period(s.io.tac), Count(s, n), Step(s, n);
      var pending, late := s'.t.state == OverflowPending, s.t.state == OverflowPending;
      var tima: Byte := if late then s.t.pending else s.io.tima;
      && k == (if Enabled(s.io.tac) then (s.t.div + n) / p - s.t.div / p else 0)
      && s'.t.div == (s.t.div + n) % DIV_LIMIT
      && s'.io.ticks == s.io.ticks + k
      && s'.io.tima == (if pending then 0 else Value(tima, s.io.tma, k))
      && s'.io.reloads + (if pending then 1 else 0)
         == s.io.reloads + (if late then 1 else 0) + Overflows(tima, s.io.tma, k)
  {
    hide Count, Overflows, Value, Cycles, Waiting, Starts, NoneLatched, Period, Shape, ProcessWrites, SetFlags;
    NothingToTake(s);
    ClosedForm(s, n);
    var b := Begun(s);
    BegunCounts(s, n);
    CountSparse(b, n);
    NextTick(b.io.tima, b.io.tma, Count(b, n));
    if JustOverflowed(b, n) { OverflowIsATick(b, n - 4); }
    ShapeRegisters(b, n, Count(b, n), OverflowCount(b, n), PhaseAfter(b, n));
  }

  lemma BegunCounts(s: Sys, n: nat)
    ensures var b := Begun(s);
      && Count(b, n) == Count(s, n) && b.io.tac == s.io.tac && b.io.tma == s.io.tma
      && b.t.div == s.t.div && b.io.ticks == s.io.ticks
  {
    hide Ticks, SetFlags;
  }

  lemma ShapeRegisters(s: Sys, n: nat, k: nat, over: nat, phase: TimaState)
    requires Value(s.io.tima, s.io.tma, k) <= 0xFF && (phase == OverflowPending ==> over > 0)
    ensures var s' := Shape(s, n, k, over, phase);
      && s'.t.state == phase && s'.t.div == (s.t.div + n) % DIV_LIMIT && s'.io.ticks == s.io.ticks + k
      && s'.io.tima == (if phase == OverflowPending then 0 else Value(s.io.tima, s.io.tma, k))
      && s'.io.reloads + (if phase == OverflowPending then 1 else 0) == s.io.reloads + over
  {
    hide Value, Signal, SetFlags;
  }
}
