/**
 What reads of the timer's registers show, in plain numbers: the divider, TIMA at each rate, the timer
 interrupt, and writes of TIMA, TMA and TAC by the state they meet.
 */
module TimerReads {
  import opened Bytes
  import opened RingLayout
  import opened Timers
  import TimerForm

  lemma HighByteIs(div: nat)
    requires div < 0x1_0000
    ensures HighByte(div) as nat == div / 0x100
  {
    ByteRoundTrip(div / 0x100);
  }

  lemma ChunkDivider(s: Sys, n: nat)
    requires s.t.div < 0x1_0000 && n > 0
    ensures var s' := Chunk(s, n);
      s'.t.div == (s.t.div + n) % 0x1_0000 && s'.io.div == HighByte(s'.t.div)
  {
    hide Signal, Bit, Enabled, Period, ReadTac, HighByte, SetFlags;
  }

  lemma {:induction false} CyclesDivider(s: Sys, n: nat)
    requires s.t.div < 0x1_0000
    ensures var s' := Cycles(s, n);
      s'.t.div == (s.t.div + n) % 0x1_0000 && (n > 0 ==> s'.io.div == HighByte(s'.t.div))
    decreases n
  {
    hide Chunk, HighByte;
    if n >= 4 {
      ChunkDivider(s, 4);
      CyclesDivider(Chunk(s, 4), n - 4);
      WrapAdds(s.t.div, 4, n - 4);
    } else if n > 0 {
      ChunkDivider(s, n);
    }
  }

  lemma WritesDivider(s: Sys)
    ensures ProcessWrites(s).t.div == if s.io.divReset then 0 else s.t.div
  {
    hide Signal, Bit, Enabled, Period, ReadTac;
  }

  /** After a step DIV shows the upper half of the divider, which has moved on by the cycles of the step
      from where it was, or from zero if the CPU has written DIV; whatever else was written. A step of no
      cycles shows zero after such a write and otherwise leaves DIV. */
  lemma DividerShown(s: Sys, n: nat)
    requires s.t.div < 0x1_0000
    ensures n > 0 ==>
      Step(s, n).io.div as nat == ((if s.io.divReset then 0 else s.t.div) + n) % 0x1_0000 / 0x100
    ensures Step(s, 0).io.div == if s.io.divReset then 0 else s.io.div
  {
    hide ProcessWrites, Cycles, HighByte;
    WritesDivider(s);
    WritesShown(s);
    CyclesDivider(ProcessWrites(s), n);
    HighByteIs(Step(s, n).t.div);
    assert Cycles(ProcessWrites(s), 0) == ProcessWrites(s) by { CyclesUnfold(ProcessWrites(s), 0); }
  }

  lemma WritesShown(s: Sys)
    ensures ProcessWrites(s).io.div == if s.io.divReset then 0 else s.io.div
  {
    hide TakeDivReset, TakeTimaWrite, TakeTmaWrite, TakeTacWrite;
    var s1 := TakeDivReset(s);
    ResetShown(s);
    TimaKeepsDiv(s1);
    TimaKeepsDiv(TakeTimaWrite(s1));
    TimaKeepsDiv(TakeTmaWrite(TakeTimaWrite(s1)));
  }

  lemma ResetShown(s: Sys)
    ensures TakeDivReset(s).io.div == if s.io.divReset then 0 else s.io.div
  {
    hide Signal, ReadTac;
  }

  lemma TimaKeepsDiv(s: Sys)
    ensures TakeTimaWrite(s).io.div == s.io.div && TakeTmaWrite(s).io.div == s.io.div
    ensures TakeTacWrite(s).io.div == s.io.div
  {
    hide Signal, Bit, Enabled, Period, ReadTac;
  }

  // ----- Rates and interrupts -----

  /** TIMA's rate in cycles, by the two low bits of TAC. */
  function Rate(tac: bv8): (r: nat)
    ensures r > 0
  {
    if tac & 0x03 == 0 then 1024 else if tac & 0x03 == 1 then 16 else if tac & 0x03 == 2 then 64 else 256
  }

  /** Ticks due in `n` cycles: none while bit 2 of TAC is clear. */
  function TicksDue(div: nat, tac: bv8, n: nat): int {
    if tac & 0x04 == 0 then 0 else (div + n) / Rate(tac) - div / Rate(tac)
  }

  /** A running timer, nothing written: until TIMA passes 0xFF it shows the ticks added to it. */
  lemma TimaCounts(s: Sys, n: nat)
    requires s.t.state == Running && s.t.div < 0x1_0000 && s.t.delay <= 4 && NoneLatched(s.io)
    requires n % 4 == 0 && n > 0 && s.io.tima + TicksDue(s.t.div, s.io.tac, n) <= 0xFF
    ensures Step(s, n).io.tima == s.io.tima + TicksDue(s.t.div, s.io.tac, n)
    ensures Step(s, n).io.flags == s.io.flags
  {
    hide Step, Cycles, NoneLatched, SetFlags, ProcessWrites;
    TimerForm.RegistersAfter(s, n);
    TimerForm.CountSparse(s, n);
    QuietFlags(s, n);
  }

  lemma QuietFlags(s: Sys, n: nat)
    requires s.t.state == Running && s.t.div < 0x1_0000 && s.t.delay <= 4 && NoneLatched(s.io)
    requires n % 4 == 0 && n > 0 && s.io.tima + TimerForm.Count(s, n) <= 0xFF
    ensures Step(s, n).io.flags == s.io.flags && Step(s, n).t.state != OverflowPending
  {
    hide Cycles, NoneLatched, SetFlags, ProcessWrites, TimerForm.Count, Signal;
    NothingToTake(s);
    TimerForm.ClosedForm(s, n);
    if n >= 4 { TimerForm.CountSparse(s, n - 4); }
  }

  /** The timer interrupt is bit 2 of IF: set by the first reload, and no other line is touched. */
  lemma TimerInterrupt(s: Sys, n: nat)
    requires TimerForm.Waiting(s) && NoneLatched(s.io) && n % 4 == 0 && s.io.flags & 0xE0 == 0xE0
    ensures var s' := Step(s, n);
      && (s'.io.flags & 0x04 != 0 <==> s.io.flags & 0x04 != 0 || s'.io.reloads > s.io.reloads)
      && s'.io.flags & 0xFB == s.io.flags & 0xFB
  {
    hide Step, NoneLatched, SetFlags;
    FlagsAfter(s, n);
    RaisedOnce(s.io.flags);
    RaisedOnce(SetFlags(s.io.flags | 0x04));
  }

  lemma FlagsAfter(s: Sys, n: nat)
    requires TimerForm.Waiting(s) && NoneLatched(s.io) && n % 4 == 0
    ensures var before, once, io := s.io.flags, SetFlags(s.io.flags | 0x04), Step(s, n).io;
      || (io.flags == before && io.reloads == s.io.reloads)
      || (io.reloads > s.io.reloads && (io.flags == once || io.flags == SetFlags(once | 0x04)))
  {
    hide Cycles, NoneLatched, SetFlags, ProcessWrites, TimerForm.Begun, TimerForm.Shape, TimerForm.PhaseAfter;
    NothingToTake(s);
    TimerForm.ClosedForm(s, n);
    var b := TimerForm.Begun(s);
    BegunFlags(s);
    ShapeFlags(b, n, TimerForm.Count(b, n), TimerForm.OverflowCount(b, n), TimerForm.PhaseAfter(b, n));
  }

  lemma BegunFlags(s: Sys)
    ensures var b := TimerForm.Begun(s);
      if s.t.state == OverflowPending then
        b.io.flags == SetFlags(s.io.flags | 0x04) && b.io.reloads == s.io.reloads + 1
      else b.io.flags == s.io.flags && b.io.reloads == s.io.reloads
  {
    hide SetFlags;
  }

  lemma ShapeFlags(s: Sys, n: nat, k: nat, over: nat, phase: TimaState)
    ensures var s' := TimerForm.Shape(s, n, k, over, phase);
      || (s'.io.flags == s.io.flags && s'.io.reloads == s.io.reloads)
      || (s'.io.flags == SetFlags(s.io.flags | 0x04) && s'.io.reloads > s.io.reloads)
  {
    hide SetFlags, Signal, TimerForm.Value, HighByte;
  }

  lemma RaisedOnce(flags: bv8)
    requires flags & 0xE0 == 0xE0
    ensures var r := SetFlags(flags | 0x04);
      r & 0x04 != 0 && r & 0xFB == flags & 0xFB && r & 0xE0 == 0xE0
  {
  }

  /** The wait for a reload is counted in cycles: where no tick falls into it, a call of up to four that
      does not use the wait up only shortens it, and one that does makes the reload, with TMA as it was
      latched and IF bit 2. */
  lemma ReloadIsDue(s: Sys, n: nat)
    requires s.t.state == OverflowPending && NoneLatched(s.io) && 0 < n <= 4
    requires Step(s, n).io.ticks == s.io.ticks
    ensures var s' := Step(s, n);
      if n < s.t.delay then
        s'.t.state == OverflowPending && s'.t.delay == s.t.delay - n && s'.io.tima == s.io.tima
        && s'.io.flags == s.io.flags
      else
        s'.t.state == Reloading && s'.io.tima == s.t.pending && s'.io.flags == ((s.io.flags | 0x04) & 0x1F) | 0xE0
  {
  }

  // ----- Writes by the state they meet -----

  /** A write of TIMA counts from there; while a reload waits it calls the reload off; while the reload
      is being made it is lost. */
  lemma TimaWriteByState(s: Sys, value: Byte)
    requires NoneLatched(s.io)
    ensures var s' := Step(s.(io := WriteTima(s.io, value)), 0);
      && (s.t.state == Running ==> s' == s.(io := s.io.(tima := value)))
      && (s.t.state == OverflowPending ==>
            s' == Sys(s.t.(state := Running, delay := 0), s.io.(tima := value)))
      && (s.t.state == Reloading ==> s' == s.(io := s.io.(tima := s.t.pending)))
  {
  }

  /** A write of TMA is what the next reload takes, one that waits included; one being made takes it at
      once. */
  lemma TmaWriteByState(s: Sys, value: Byte)
    requires NoneLatched(s.io)
    ensures var s' := Step(s.(io := WriteTma(s.io, value)), 0);
      && s'.io.tma == value && s'.t == s.t.(pending := value)
      && s'.io.tima == if s.t.state == Reloading then value else s.io.tima
  {
  }

  /** A write of TAC keeps its three low bits, and a read shows the others set. */
  lemma TacWriteShows(s: Sys, value: bv8)
    requires NoneLatched(s.io)
    ensures var s' := Step(s.(io := WriteTac(s.io, value)), 0);
      s'.io.tac == value & 0x07 && ReadTac(s'.io) == (value & 0x07) | 0xF8 && s'.t.div == s.t.div
  {
    hide Bit, Period, Signal;
  }
}
