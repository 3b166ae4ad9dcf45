/**
 The peripherals of the emulator as one client of the bus: timers, picture unit and serial clock, in
 the order the core steps them. Every span the core hands out steps each of them by exactly that span.
 */
module Peripherals {
  import opened RingLayout
  import opened MemoryBus
  import opened Core
  import opened CoreLoop
  import opened CycleBooks
  import opened Lanes
  import opened Lockstep
  import Pictures = PpuClient
  import P = Ppu
  import Serial
  import T = Timers
  import Clock = TimerClient
  import TimerReads
  import PpuStatus

  // ----- One device after another -----

  datatype Pair<D, E> = Pair(first: D, second: E)

  /** Both get the span; the first makes all its calls before the second makes any. */
  function Sequenced<D, E>(p: Device<D>, q: Device<E>): Device<Pair<D, E>> {
    Device((s: Pair<D, E>, n: nat) => Pair(p.begin(s.first, n), q.begin(s.second, n)),
           (s: Pair<D, E>) => if p.ask(s.first).Some? then p.ask(s.first) else q.ask(s.second),
           (s: Pair<D, E>, answer: Answer) =>
             if p.ask(s.first).Some? then s.(first := p.tell(s.first, answer))
             else s.(second := q.tell(s.second, answer)),
           p.turns + q.turns,
           (s: Pair<D, E>) => p.frameReady(s.first) || q.frameReady(s.second))
  }

  lemma {:induction false} SecondRuns<V, W, M, B, D, E>(
    k: Backend<V, W, M, B>, p: Device<D>, q: Device<E>, bus: B, d: D, e: E, turns: nat)
    requires p.ask(d).None?
    ensures var (b, e') := Turn(k, q, bus, e, turns);
      Turn(k, Sequenced(p, q), bus, Pair(d, e), turns) == (b, Pair(d, e'))
    decreases turns
  {
    if turns > 0 && q.ask(e).Some? {
      var (b, answer) := k.serve(bus, q.ask(e).value);
      SecondRuns(k, p, q, b, d, q.tell(e, answer), turns - 1);
    }
  }

  /** Calls left over change nothing. */
  lemma {:induction false} EndedEarly<V, W, M, B, D>(
    k: Backend<V, W, M, B>, p: Device<D>, bus: B, d: D, turns: nat, more: nat)
    requires turns <= more && p.ask(Turn(k, p, bus, d, turns).1).None?
    ensures Turn(k, p, bus, d, more) == Turn(k, p, bus, d, turns)
    decreases turns
  {
    if turns > 0 && p.ask(d).Some? {
      var (b, answer) := k.serve(bus, p.ask(d).value);
      EndedEarly(k, p, b, p.tell(d, answer), turns - 1, more - 1);
    }
  }

  /** Two clients that each end within their turns end one after the other within the sum. */
  lemma {:induction false} SequencedRuns<V, W, M, B, D, E>(
    k: Backend<V, W, M, B>, p: Device<D>, q: Device<E>, bus: B, d: D, e: E, i: nat, j: nat, turns: nat)
    requires i + j <= turns
    requires p.ask(Turn(k, p, bus, d, i).1).None?
    requires q.ask(Turn(k, q, Turn(k, p, bus, d, i).0, e, j).1).None?
    ensures var (b, d') := Turn(k, p, bus, d, i);
      var (b', e') := Turn(k, q, b, e, j);
      Turn(k, Sequenced(p, q), bus, Pair(d, e), turns) == (b', Pair(d', e'))
    decreases i
  {
    if i > 0 && p.ask(d).Some? {
      var (b, answer) := k.serve(bus, p.ask(d).value);
      SequencedRuns(k, p, q, b, p.tell(d, answer), e, i - 1, j, turns - 1);
    } else {
      SecondRuns(k, p, q, bus, d, e, turns);
      EndedEarly(k, q, bus, e, j, turns);
    }
  }

  // ----- The serial clock -----

  /** The span the serial link has still to be told of. */
  datatype Due = Due(cycles: Option<nat>)

  function SerialClock(): Device<Due> {
    Device((d: Due, n: nat) => Due(Some(n)),
           (d: Due) => if d.cycles.Some? then Some(StepSerial(d.cycles.value)) else None,
           (d: Due, answer: Answer) => Due(None), 1, (d: Due) => false)
  }

  lemma SerialRuns(m: Bus, n: nat)
    ensures Turn(ScalarBackend(), SerialClock(), m, Due(Some(n)), 1)
         == (WithLink(m, Serial.Advance(LinkOf(m), n)), Due(None))
  {
    hide Serial.Advance;
  }

  // ----- All of them -----

  type State = Pair<Clock.Client, Pair<Pictures.Client, Due>>

  const TIMER_TURNS := 65
  const PICTURE_TURNS := 24 + 36 * 24

  /** The core's peripherals: timers, then the picture unit, then the serial clock. */
  function Emulator(): Device<State> {
    Sequenced(Clock.TimerDevice(TIMER_TURNS), Sequenced(Pictures.Pictures(PICTURE_TURNS), SerialClock()))
  }

  /** Between spans the picture unit is at rest with its counters in range. */
  predicate Ready(s: State) {
    s.second.first.prog.End? && P.Sane(s.second.first.prog.held.unit)
  }

  /** What a span does: the timers' step on the bus, the picture unit's step on the bus they leave, and
      the serial link's on that. */
  ghost predicate Stepped(m: Bus, s: State, n: nat, m': Bus, s': State)
    requires Ready(s)
  {
    exists between: Bus :: SteppedBy(m, s, n, between, m', s')
  }

  ghost predicate SteppedBy(m: Bus, s: State, n: nat, between: Bus, m': Bus, s': State)
    requires Ready(s)
  {
    var c := s.second.first;
    var pictures := Pictures.Moved(c, Pictures.System(between, c.prog.held), n);
    var after := Pictures.With(between, pictures.io);
    && Clock.System(s'.first, between) == T.Step(Clock.System(s.first, m), n) && Clock.OnlyTimers(m, between)
    && s'.second.first == Pictures.Client(c.enabled, c.prog.held, Pictures.End(Pictures.HeldOf(pictures)))
    && Pictures.System(after, Pictures.HeldOf(pictures)) == pictures
    && m' == WithLink(after, Serial.Advance(LinkOf(after), n))
  }

  lemma TurnsAll(m: Bus, s: State, n: nat)
    requires 0 < n <= 24 && Ready(s)
    ensures var e := Emulator();
      var (m', s') := Turn(ScalarBackend(), e, m, e.begin(s, n), e.turns);
      Ready(s') && Stepped(m, s, n, m', s')
  {
    hide Turn, ScalarBackend, Clock.System, Clock.ResetCalls, Clock.TimerDevice, Pictures.Pictures, SerialClock;
    hide Pictures.System, Pictures.With, Pictures.Moved, P.Sane, Serial.Advance, LinkOf, WithLink, T.Step;
    hide Clock.OnlyTimers;
    var k, timers, pictures, serial :=
      ScalarBackend(), Clock.TimerDevice(TIMER_TURNS), Pictures.Pictures(PICTURE_TURNS), SerialClock();
    var t0, c0, d0 := Clock.Begin(s.first, n), Pictures.Begin(s.second.first, n), Due(Some(n));
    Begins(s, n);
    Clock.CallsWithinInstruction(m, n);
    Clock.StepByCalls(s.first, m, n, TIMER_TURNS);
    Clock.TurnTouches(t0, m, TIMER_TURNS, TIMER_TURNS);
    var (b1, t1) := Turn(k, timers, m, t0, TIMER_TURNS);
    Pictures.StepByCalls(s.second.first, b1, n, PICTURE_TURNS);
    var (b2, c1) := Turn(k, pictures, b1, c0, PICTURE_TURNS);
    SerialRuns(b2, n);
    Asks(t1, c1);
    SequencedRuns(k, pictures, serial, b1, c0, d0, PICTURE_TURNS, 1, PICTURE_TURNS + 1);
    var rest := Sequenced(pictures, serial);
    SequencedAsk(pictures, serial, c1, Due(None));
    var all := TIMER_TURNS + PICTURE_TURNS + 1;
    SequencedRuns(k, timers, rest, m, t0, Pair(c0, d0), TIMER_TURNS, PICTURE_TURNS + 1, all);
    var (m', s') := Turn(k, Emulator(), m, Pair(t0, Pair(c0, d0)), all);
    assert SteppedBy(m, s, n, b1, m', s');
  }

  lemma Begins(s: State, n: nat)
    ensures Emulator().begin(s, n)
         == Pair(Clock.Begin(s.first, n), Pair(Pictures.Begin(s.second.first, n), Due(Some(n))))
    ensures Emulator().turns == TIMER_TURNS + PICTURE_TURNS + 1
  {
    hide Clock.Begin, Pictures.Begin;
  }

  /** A client at rest asks for nothing. */
  lemma Asks(t: Clock.Client, c: Pictures.Client)
    ensures t.at.Idle? ==> Clock.TimerDevice(TIMER_TURNS).ask(t).None?
    ensures c.prog.End? ==> Pictures.Pictures(PICTURE_TURNS).ask(c).None?
    ensures SerialClock().ask(Due(None)).None?
  {
  }

  lemma SequencedAsk<D, E>(p: Device<D>, q: Device<E>, d: D, e: E)
    ensures p.ask(d).None? && q.ask(e).None? ==> Sequenced(p, q).ask(Pair(d, e)).None?
  {
  }

  /** Every span of an instruction's length or less steps timers, picture unit and serial link by exactly
      that span, each on the bus the one before left, and leaves them ready for the next. */
  lemma SpanStepsAll(m: Scalar<State>, n: nat)
    requires 0 < n <= 24 && Ready(m.dev)
    ensures var r := Consume(ScalarBackend(), Emulator(), m, n);
      Ready(r.dev) && Stepped(m.bus, m.dev, n, r.bus, r.dev)
  {
    hide Turn, ScalarBackend, Emulator, Ready, Stepped;
    TurnsAll(m.bus, m.dev, n);
  }

  /** What the processor reads from DIV after a span: the upper half of the divider, moved on by the span
      from where it was, or from zero if DIV has been written since the last one. */
  lemma DividerRead(m: Scalar<State>, n: nat)
    requires 0 < n <= 24 && Ready(m.dev) && m.dev.first.div < 0x1_0000
    ensures var r := Consume(ScalarBackend(), Emulator(), m, n);
      ReadByte(r.bus, 0xFF04) as nat
      == ((if m.bus.latches.divReset then 0 else m.dev.first.div) + n) % 0x1_0000 / 0x100
  {
    hide Consume, Ready, SteppedBy, ReadByte, T.Step;
    SpanStepsAll(m, n);
    var r := Consume(ScalarBackend(), Emulator(), m, n);
    var between: Bus :| SteppedBy(m.bus, m.dev, n, between, r.bus, r.dev);
    DividerAfter(m.bus, m.dev, n, between, r.bus, r.dev);
    DividerIs(m.dev.first, m.bus);
    TimerReads.DividerShown(Clock.System(m.dev.first, m.bus), n);
    DividerReads(r.bus);
  }

  lemma DividerReads(m: Bus)
    ensures ReadByte(m, 0xFF04) == m.io[DIV]
  {
  }

  lemma DividerIs(c: Clock.Client, m: Bus)
    ensures var s := Clock.System(c, m);
      s.t.div == c.div && s.io.divReset == m.latches.divReset && s.io.div == m.io[DIV]
  {
  }

  /** Neither the picture unit nor the serial link writes DIV. */
  lemma DividerAfter(m: Bus, s: State, n: nat, between: Bus, m': Bus, s': State)
    requires Ready(s) && SteppedBy(m, s, n, between, m', s')
    ensures m'.io[DIV] == T.Step(Clock.System(s.first, m), n).io.div
  {
    hide Ready, T.Step, Serial.Advance, Pictures.Moved, Pictures.System;
    DividerIs(s'.first, between);
  }

  /** With the LCD on, what the processor reads from LY and STAT after a span is read off the position in
      the frame, and the core stops where the frame is complete. */
  lemma PictureRead(m: Scalar<State>, n: nat)
    requires 0 < n <= 24 && Ready(m.dev) && m.dev.second.first.enabled
    requires P.InStep(m.dev.second.first.prog.held.unit) && m.bus.lyOverride.None?
    requires ReadByte(m.bus, 0xFF40) & 0x80 != 0
    requires ReadByte(m.bus, 0xFF44) as nat == m.dev.second.first.prog.held.unit.ly
    ensures var r, u := Consume(ScalarBackend(), Emulator(), m, n), m.dev.second.first.prog.held.unit;
      var x, ly, stat := (P.Phase(u) + n) % 70224, ReadByte(r.bus, 0xFF44), ReadByte(r.bus, 0xFF41);
      && ly as nat == x / 456 && stat & 0x03 == PpuStatus.ModeDue(x)
      && (stat & 0x04 != 0 <==> ly == ReadByte(r.bus, 0xFF45))
      && stat & 0xF8 == ReadByte(m.bus, 0xFF41) & 0xF8
      && Emulator().frameReady(r.dev) == (u.frameReady || P.Phase(u) + n >= 70224)
  {
    hide Consume, SteppedBy, ReadByte, P.Sane, P.Step, P.InStep, P.Phase, PpuStatus.ModeDue, Emulator;
    SpanStepsAll(m, n);
    var r := Consume(ScalarBackend(), Emulator(), m, n);
    var between: Bus :| SteppedBy(m.bus, m.dev, n, between, r.bus, r.dev);
    PictureReads(m.bus);
    PictureAfter(m.bus, m.dev, n, between, r.bus, r.dev);
    PictureReads(r.bus);
    FrameSignal(r.dev);
    var before := Pictures.System(m.bus, m.dev.second.first.prog.held);
    var s := before.(io := before.io.(flags := between.io[IF]));
    PpuStatus.StatusAfter(s, n);
    PpuStatus.FramesAfter(s, n);
  }

  lemma PictureReads(m: Bus)
    requires m.lyOverride.None?
    ensures ReadByte(m, 0xFF40) == m.io[0x40] && ReadByte(m, 0xFF41) == m.io[0x41]
    ensures ReadByte(m, 0xFF44) == m.io[0x44] && ReadByte(m, 0xFF45) == m.io[0x45]
  {
  }

  /** The core is told of a frame by the picture unit alone. */
  lemma FrameSignal(s: State)
    requires s.second.first.prog.End?
    ensures Emulator().frameReady(s) == s.second.first.prog.held.unit.frameReady
  {
  }

  /** Neither the timers nor the serial link touch the picture unit's registers. */
  lemma PictureAfter(m: Bus, s: State, n: nat, between: Bus, m': Bus, s': State)
    requires Ready(s) && SteppedBy(m, s, n, between, m', s') && s.second.first.enabled
    ensures var c := s.second.first;
      var before := Pictures.System(m, c.prog.held);
      && P.Sane(before.p)
      && before.io.lcdc == m.io[0x40] && before.io.stat == m.io[0x41] && before.io.ly == m.io[0x44]
      && before.io.lyc == m.io[0x45] && before.p == c.prog.held.unit
      && var after := P.Step(before.(io := before.io.(flags := between.io[IF])), n);
        && s'.second.first.prog == Pictures.End(Pictures.HeldOf(after))
        && m'.io[0x41] == after.io.stat && m'.io[0x44] == after.io.ly && m'.io[0x45] == m.io[0x45]
        && m'.lyOverride == m.lyOverride
  {
    hide P.Step, T.Step, Serial.Advance, P.Sane, Clock.System;
  }

  lemma EmulatorKeeps()
    ensures Keeps(ScalarBackend(), Emulator(), (s: State) => Ready(s))
  {
    hide Turn, ScalarBackend, Emulator, Ready, Stepped;
    forall m: Bus, s: State, n: nat | Ready(s) && 0 < n <= 24
      ensures Ready(Turn(ScalarBackend(), Emulator(), m, Emulator().begin(s, n), Emulator().turns).1)
    {
      TurnsAll(m, s, n);
    }
  }

  /** Through a whole step by any budget the peripherals are ready at every span, so that each of them is
      stepped by every span exactly; the spans add up to the cycles the step reports, and none is longer
      than an instruction. */
  lemma EmulatorFed(m: Scalar<State>, budget: nat)
    requires Ready(m.dev)
    ensures var (s, r) :=
        (StepLoop(ScalarBackend(), Counted(Emulator()), Opened(m), budget, 0),
         StepLoop(ScalarBackend(), Emulator(), m, budget, 0));
      && s.Fine? == r.Fine?
      && (r.Fine? ==>
            && Plain(s.value.0) == r.value.0 && Ready(r.value.0.dev)
            && s.value.0.dev.fed == r.value.1 && s.value.0.dev.longest <= 24)
  {
    hide StepLoop, ScalarBackend, Emulator, Ready, Counted, Keeps;
    EmulatorKeeps();
    PeripheralsFed(ScalarBackend(), Emulator(), m, budget);
    StepKeeps(ScalarBackend(), Emulator(), (s: State) => Ready(s), m, budget);
  }
}
