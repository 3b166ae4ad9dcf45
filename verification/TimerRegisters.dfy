/**
 The timer's registers as cells of the bus: a CPU write through the memory map latches exactly what
 the timer's own account of its registers says, and the timer's calls take exactly those latches.
 */
module TimerRegisters {
  import opened Bytes
  import opened RingLayout
  import opened MemoryBus
  import T = Timers

  function Int(v: bv8): Byte {
    v as int
  }

  function IntOption(v: Option<bv8>): Option<Byte> {
    match v
    case None => None
    case Some(value) => Some(Int(value))
  }

  /** The timer's side of a bus. */
  function RegsOf(m: Bus, ticks: nat, reloads: nat): T.Regs {
    T.Regs(m.io[DIV], Int(m.io[TIMA]), Int(m.io[TMA]), m.io[TAC], m.io[IF],
           m.latches.divReset, IntOption(m.latches.tima), IntOption(m.latches.tma), m.latches.tac, ticks, reloads)
  }

  /** On a new bus the timer's registers are those its runs start from. */
  lemma PowerOnRegisters(rom: seq<bv8>, boot: Option<seq<bv8>>)
    ensures RegsOf(Fresh(rom, boot), 0, 0) == T.PowerOnSystem().io
  {
  }

  lemma HighWrite(m: Bus, idx: RegIndex, value: bv8)
    ensures WriteByte(m, 0xFF00 + idx, value) == WriteHigh(m, idx, value)
  {
    hide WriteHigh, BankFor;
  }

  /** Writes to FF04 to FF07 latch for the timer. */
  lemma CpuWritesLatch(m: Bus, value: bv8, ticks: nat, reloads: nat)
    ensures var r := RegsOf(m, ticks, reloads);
      && RegsOf(WriteByte(m, 0xFF04, value), ticks, reloads) == T.WriteDiv(r)
      && RegsOf(WriteByte(m, 0xFF05, value), ticks, reloads) == T.WriteTima(r, Int(value))
      && RegsOf(WriteByte(m, 0xFF06, value), ticks, reloads) == T.WriteTma(r, Int(value))
      && RegsOf(WriteByte(m, 0xFF07, value), ticks, reloads) == T.WriteTac(r, value)
  {
    hide WriteByte, RegsOf, WriteHigh;
    HighWrite(m, DIV, value);
    HighWrite(m, TIMA, value);
    HighWrite(m, TMA, value);
    HighWrite(m, TAC, value);
    DividerWrite(m, value, ticks, reloads);
    CounterWrites(m, value, ticks, reloads);
    ControlWrite(m, value, ticks, reloads);
  }

  lemma DividerWrite(m: Bus, value: bv8, ticks: nat, reloads: nat)
    ensures RegsOf(WriteHigh(m, DIV, value), ticks, reloads) == T.WriteDiv(RegsOf(m, ticks, reloads))
  {
    hide Transfer, Int;
  }

  lemma CounterWrites(m: Bus, value: bv8, ticks: nat, reloads: nat)
    ensures RegsOf(WriteHigh(m, TIMA, value), ticks, reloads) == T.WriteTima(RegsOf(m, ticks, reloads), Int(value))
    ensures RegsOf(WriteHigh(m, TMA, value), ticks, reloads) == T.WriteTma(RegsOf(m, ticks, reloads), Int(value))
  {
    hide Transfer, Int;
  }

  lemma ControlWrite(m: Bus, value: bv8, ticks: nat, reloads: nat)
    ensures RegsOf(WriteHigh(m, TAC, value), ticks, reloads) == T.WriteTac(RegsOf(m, ticks, reloads), value)
  {
    hide Transfer, Int;
  }

  /** Each take answers with the latch and clears it, and touches nothing else of the timer's. */
  lemma TakesClearLatches(m: Bus, ticks: nat, reloads: nat)
    ensures var r, (after, answer) := RegsOf(m, ticks, reloads), Serve(m, TakeDivReset);
      answer == Flag(r.divReset) && RegsOf(after, ticks, reloads) == r.(divReset := false)
    ensures var r, (after, answer) := RegsOf(m, ticks, reloads), Serve(m, TakeTimaWrite);
      && answer.MaybeByte? && IntOption(answer.byte) == r.timaWrite
      && RegsOf(after, ticks, reloads) == r.(timaWrite := None)
    ensures var r, (after, answer) := RegsOf(m, ticks, reloads), Serve(m, TakeTmaWrite);
      && answer.MaybeByte? && IntOption(answer.byte) == r.tmaWrite
      && RegsOf(after, ticks, reloads) == r.(tmaWrite := None)
    ensures var r, (after, answer) := RegsOf(m, ticks, reloads), Serve(m, TakeTacWrite);
      answer == MaybePair(r.tacWrite) && RegsOf(after, ticks, reloads) == r.(tacWrite := None)
  {
    hide Int, Serve, RegsOf;
    ResetTaken(m, ticks, reloads);
    TimaTaken(m, ticks, reloads);
    TmaTaken(m, ticks, reloads);
    TacTaken(m, ticks, reloads);
  }

  lemma ResetTaken(m: Bus, ticks: nat, reloads: nat)
    ensures var r, (after, answer) := RegsOf(m, ticks, reloads), Serve(m, TakeDivReset);
      answer == Flag(r.divReset) && RegsOf(after, ticks, reloads) == r.(divReset := false)
  {
    hide Int, IntOption;
  }

  lemma TimaTaken(m: Bus, ticks: nat, reloads: nat)
    ensures var r, (after, answer) := RegsOf(m, ticks, reloads), Serve(m, TakeTimaWrite);
      && answer.MaybeByte? && IntOption(answer.byte) == r.timaWrite
      && RegsOf(after, ticks, reloads) == r.(timaWrite := None)
  {
    hide Int;
  }

  lemma TmaTaken(m: Bus, ticks: nat, reloads: nat)
    ensures var r, (after, answer) := RegsOf(m, ticks, reloads), Serve(m, TakeTmaWrite);
      && answer.MaybeByte? && IntOption(answer.byte) == r.tmaWrite
      && RegsOf(after, ticks, reloads) == r.(tmaWrite := None)
  {
    hide Int;
  }

  lemma TacTaken(m: Bus, ticks: nat, reloads: nat)
    ensures var r, (after, answer) := RegsOf(m, ticks, reloads), Serve(m, TakeTacWrite);
      answer == MaybePair(r.tacWrite) && RegsOf(after, ticks, reloads) == r.(tacWrite := None)
  {
    hide Int, IntOption;
  }
}
