/**
 The picture unit's scanline machine: a loop that jumps from one mode change to the next equals a
 dot-by-dot reference, whatever the cycles are split into.
 */
module Ppu {
  import opened Arithmetic

  const DOTS_PER_LINE := 456
  const MODE2_CYCLES := 80
  const MODE3_CYCLES := 172
  const VBLANK_START_LINE := 144
  const TOTAL_LINES := 154
  const CYCLES_PER_FRAME := 70224

  datatype Unit = Unit(dot: nat, ly: nat, mode: bv8, lycEqual: bool, frameReady: bool, lcdWasOn: bool)

  /** The registers the unit touches. `frames` and `vblanks` count completed frames and VBlank
      interrupts; nothing reads them. */
  datatype Io = Io(lcdc: bv8, stat: bv8, ly: bv8, lyc: bv8, flags: bv8, frames: nat, vblanks: nat)

  datatype Sys = Sys(p: Unit, io: Io)

  function Idle(): Unit {
    Unit(0, 0, 0, false, false, false)
  }

  /** A line number as LY shows it. */
  function LineByte(ly: nat): bv8 {
    (ly % 0x100) as bv8
  }

  predicate LcdOn(io: Io) {
    io.lcdc & 0x80 != 0
  }

  function Raise(io: Io, bit: bv8): Io {
    io.(flags := ((io.flags | bit) & 0x1F) | 0xE0)
  }

  predicate VBlankRaised(io: Io) {
    io.flags & 0x01 != 0
  }

  /** STAT keeps its upper bits and shows the mode and the LYC comparison below. */
  function StatWith(stat: bv8, mode: bv8, equal: bool): bv8 {
    (stat & 0xF8) | (mode & 0x03) | (if equal then 0x04 else 0)
  }

  predicate Wants(stat: bv8, mode: bv8) {
    (mode == 0 && stat & 0x08 != 0) || (mode == 1 && stat & 0x10 != 0) || (mode == 2 && stat & 0x20 != 0)
  }

  function Refresh(s: Sys): Sys {
    var equal := LineByte(s.p.ly) == s.io.lyc;
    var io := s.io.(stat := StatWith(s.io.stat, s.p.mode, equal));
    Sys(s.p.(lycEqual := equal),
        if !s.p.lycEqual && equal && s.io.stat & 0x40 != 0 then Raise(io, 0x02) else io)
  }

  function SetMode(s: Sys, mode: bv8): Sys {
    if s.p.mode == mode then s
    else
      var io := s.io.(stat := StatWith(s.io.stat, mode, s.p.lycEqual));
      Sys(s.p.(mode := mode), if Wants(s.io.stat, mode) then Raise(io, 0x02) else io)
  }

  function StartLcd(s: Sys): Sys {
    SetMode(Sys(Unit(0, 0, 0, false, false, true), s.io.(ly := 0)), 2)
  }

  function ForceOff(s: Sys): Sys {
    var equal := s.io.lyc == 0;
    Sys(Unit(0, 0, 0, equal, false, false), s.io.(ly := 0, stat := StatWith(s.io.stat, 0, equal)))
  }

  /** Entering line `ly`. */
  function EnterLine(s: Sys, ly: nat): Sys {
    BeginLine(Refresh(Sys(s.p.(ly := ly), s.io.(ly := LineByte(ly)))))
  }

  function BeginLine(s: Sys): Sys {
    if s.p.ly == 0 then SetMode(Sys(s.p.(frameReady := true), s.io.(frames := s.io.frames + 1)), 2)
    else if s.p.ly < VBLANK_START_LINE then SetMode(s, 2)
    else if s.p.ly == VBLANK_START_LINE then
      SetMode(s.(io := Raise(s.io, 0x01).(vblanks := s.io.vblanks + 1)), 1)
    else s
  }

  function AdvanceLine(s: Sys): Sys {
    var next := (s.p.ly + 1) % 0x100;
    EnterLine(s, if next >= TOTAL_LINES then 0 else next)
  }

  /** Where the current mode ends within its line. */
  function Boundary(mode: bv8): nat {
    if mode == 2 then MODE2_CYCLES
    else if mode == 3 then MODE2_CYCLES + MODE3_CYCLES
    else DOTS_PER_LINE
  }

  /** The unit's counters make the cycles to the next event computable without underflow. */
  predicate Sane(p: Unit) {
    p.mode <= 3 && p.dot <= Boundary(p.mode)
  }

  function UntilNext(p: Unit): nat
    requires Sane(p)
  {
    Boundary(p.mode) - p.dot
  }

  function HandleEvent(s: Sys): Sys {
    if s.p.mode == 2 then SetMode(s, 3)
    else if s.p.mode == 3 then SetMode(s, 0)
    else if s.p.mode == 0 || s.p.mode == 1 then
      AdvanceLine(s.(p := s.p.(dot := if s.p.dot >= DOTS_PER_LINE then s.p.dot - DOTS_PER_LINE else 0)))
    else s
  }

  lemma RaiseKeeps(io: Io)
    ensures VBlankRaised(Raise(io, 0x01)) && VBlankRaised(Raise(io, 0x02)) == VBlankRaised(io)
  {
  }

  lemma RefreshKeeps(s: Sys)
    ensures var s' := Refresh(s);
      && s'.p == s.p.(lycEqual := LineByte(s.p.ly) == s.io.lyc)
      && s'.io.lcdc == s.io.lcdc && s'.io.lyc == s.io.lyc && s'.io.ly == s.io.ly
      && s'.io.frames == s.io.frames && s'.io.vblanks == s.io.vblanks && VBlankRaised(s'.io) == VBlankRaised(s.io)
  {
    hide StatWith, VBlankRaised, LineByte;
    RaiseKeeps(s.io.(stat := StatWith(s.io.stat, s.p.mode, LineByte(s.p.ly) == s.io.lyc)));
    FlagsOnly(s.io, s.io.(stat := StatWith(s.io.stat, s.p.mode, LineByte(s.p.ly) == s.io.lyc)));
  }

  lemma FlagsOnly(io: Io, io': Io)
    requires io'.flags == io.flags
    ensures VBlankRaised(io') == VBlankRaised(io)
  {
  }

  lemma SetModeKeeps(s: Sys, mode: bv8)
    ensures var s' := SetMode(s, mode);
      && s'.p == s.p.(mode := mode)
      && s'.io.lcdc == s.io.lcdc && s'.io.lyc == s.io.lyc && s'.io.ly == s.io.ly
      && s'.io.frames == s.io.frames && s'.io.vblanks == s.io.vblanks && VBlankRaised(s'.io) == VBlankRaised(s.io)
  {
    hide StatWith, Wants, VBlankRaised;
    var io := s.io.(stat := StatWith(s.io.stat, mode, s.p.lycEqual));
    RaiseKeeps(io);
    FlagsOnly(s.io, io);
  }

  lemma EnterLineKeeps(s: Sys, ly: nat)
    requires ly < TOTAL_LINES
    requires s.p.mode == 0 || s.p.mode == 1
    ensures var s' := EnterLine(s, ly);
      && s'.p.dot == s.p.dot && s'.p.ly == ly && s'.p.lcdWasOn == s.p.lcdWasOn
      && s'.p.lycEqual == (LineByte(ly) == s.io.lyc)
      && s'.p.mode == (if ly < VBLANK_START_LINE then 2 else if ly == VBLANK_START_LINE then 1 else s.p.mode)
      && s'.p.frameReady == (s.p.frameReady || ly == 0)
      && s'.io.lcdc == s.io.lcdc && s'.io.lyc == s.io.lyc && s'.io.ly == LineByte(ly)
      && s'.io.frames == s.io.frames + (if ly == 0 then 1 else 0)
      && s'.io.vblanks == s.io.vblanks + (if ly == VBLANK_START_LINE then 1 else 0)
      && VBlankRaised(s'.io) == (VBlankRaised(s.io) || ly == VBLANK_START_LINE)
  {
    hide Refresh, SetMode, BeginLine, VBlankRaised, LineByte;
    var s0 := Sys(s.p.(ly := ly), s.io.(ly := LineByte(ly)));
    RefreshKeeps(s0);
    FlagsOnly(s.io, s0.io);
    BeginLineKeeps(Refresh(s0));
  }

  lemma BeginLineKeeps(s: Sys)
    requires s.p.ly < TOTAL_LINES
    ensures var s', ly := BeginLine(s), s.p.ly;
      && s'.p == s.p.(frameReady := s.p.frameReady || ly == 0,
                      mode := if ly < VBLANK_START_LINE then 2 else if ly == VBLANK_START_LINE then 1 else s.p.mode)
      && s'.io.lcdc == s.io.lcdc && s'.io.lyc == s.io.lyc && s'.io.ly == s.io.ly
      && s'.io.frames == s.io.frames + (if ly == 0 then 1 else 0)
      && s'.io.vblanks == s.io.vblanks + (if ly == VBLANK_START_LINE then 1 else 0)
      && VBlankRaised(s'.io) == (VBlankRaised(s.io) || ly == VBLANK_START_LINE)
  {
    hide SetMode, VBlankRaised;
    if s.p.ly == 0 {
      FlagsOnly(s.io, s.io.(frames := s.io.frames + 1));
      SetModeKeeps(Sys(s.p.(frameReady := true), s.io.(frames := s.io.frames + 1)), 2);
    } else if s.p.ly < VBLANK_START_LINE {
      SetModeKeeps(s, 2);
    } else if s.p.ly == VBLANK_START_LINE {
      RaiseKeeps(s.io);
      FlagsOnly(Raise(s.io, 0x01), Raise(s.io, 0x01).(vblanks := s.io.vblanks + 1));
      SetModeKeeps(s.(io := Raise(s.io, 0x01).(vblanks := s.io.vblanks + 1)), 1);
    }
  }

  /** An event at a mode's boundary leaves room before the next one. */
  lemma EventMakesRoom(s: Sys)
    requires Sane(s.p) && UntilNext(s.p) == 0
    ensures Sane(HandleEvent(s).p) && UntilNext(HandleEvent(s).p) > 0
  {
    hide SetMode, EnterLine, LineByte;
    SetModeKeeps(s, 3);
    SetModeKeeps(s, 0);
    if s.p.mode == 0 || s.p.mode == 1 {
      var next := (s.p.ly + 1) % 0x100;
      EnterLineKeeps(s.(p := s.p.(dot := 0)), if next >= TOTAL_LINES then 0 else next);
    }
  }

  /** The body of the loop after the LCD check: at most `n` cycles, up to the next event. */
  function Leap(s: Sys, n: nat): (r: (Sys, nat))
    requires Sane(s.p)
    ensures Sane(r.0.p) && r.1 <= n
    ensures n > 0 ==> r.1 < n || UntilNext(s.p) == 0 < UntilNext(r.0.p)
  {
    var s1 := Refresh(s);
    RefreshKeeps(s);
    var remaining := UntilNext(s1.p);
    if remaining == 0 then
      EventMakesRoom(s1);
      (HandleEvent(s1), n)
    else
      var step := if remaining < n then remaining else n;
      var s2 := s1.(p := s1.p.(dot := s1.p.dot + step));
      if step == remaining then
        EventMakesRoom(s2);
        (HandleEvent(s2), n - step)
      else (s2, n - step)
  }

  /** The loop of the step. */
  function Run(s: Sys, n: nat): (r: Sys)
    requires Sane(s.p)
    ensures Sane(r.p)
    decreases n, if UntilNext(s.p) == 0 then 1 else 0
  {
    if n == 0 then s
    else if !LcdOn(s.io) then ForceOff(s)
    else
      var (s', n') := Leap(s, n);
      Run(s', n')
  }

  function Step(s: Sys, n: nat): (r: Sys)
    requires Sane(s.p)
    ensures Sane(r.p)
  {
    if n == 0 then s
    else if !LcdOn(s.io) then ForceOff(s)
    else if s.p.lcdWasOn then Run(s, n)
    else
      SetModeKeeps(Sys(Unit(0, 0, 0, false, false, true), s.io.(ly := 0)), 2);
      Run(StartLcd(s), n)
  }

  // ----- Splitting a step -----

  /** STAT already shows the mode and the comparison, so refreshing again changes nothing. */
  predicate Fresh(s: Sys) {
    s.p.lycEqual == (LineByte(s.p.ly) == s.io.lyc) && s.io.stat == StatWith(s.io.stat, s.p.mode, s.p.lycEqual)
  }

  lemma StatSettles(stat: bv8, mode: bv8, equal: bool, mode': bv8, equal': bool)
    ensures StatWith(StatWith(stat, mode, equal), mode', equal') == StatWith(stat, mode', equal')
  {
  }

  lemma RefreshIsFresh(s: Sys)
    ensures Fresh(Refresh(s))
  {
    hide StatWith, LineByte;
    var equal := LineByte(s.p.ly) == s.io.lyc;
    StatSettles(s.io.stat, s.p.mode, equal, s.p.mode, equal);
  }

  lemma FreshStays(s: Sys)
    requires Fresh(s)
    ensures Refresh(s) == s
  {
    hide StatWith, LineByte;
  }

  lemma DotKeepsFresh(s: Sys, dot: nat)
    requires Fresh(s)
    ensures Fresh(s.(p := s.p.(dot := dot)))
  {
    hide StatWith, LineByte;
  }

  lemma ForceOffTwice(s: Sys)
    ensures ForceOff(ForceOff(s)) == ForceOff(s) && ForceOff(s).io.lcdc == s.io.lcdc
  {
    hide StatWith;
    var equal := s.io.lyc == 0;
    StatSettles(s.io.stat, 0, equal, 0, equal);
  }

  /** A leap that ends before the next event can be taken in two. */
  lemma LeapSplits(s: Sys, a: nat, b: nat)
    requires Sane(s.p) && 0 < a < UntilNext(s.p) && b > 0
    ensures Leap(s, a).1 == 0 && Leap(s, a).0.io.lcdc == s.io.lcdc
    ensures Leap(s, a + b) == Leap(Leap(s, a).0, b)
  {
    hide HandleEvent, Refresh, Fresh, LineByte;
    var s1 := Refresh(s);
    RefreshKeeps(s);
    RefreshIsFresh(s);
    var s2 := s1.(p := s1.p.(dot := s1.p.dot + a));
    DotKeepsFresh(s1, s1.p.dot + a);
    FreshStays(s2);
    assert Leap(s, a) == (s2, 0);
  }

  /** A leap that reaches an event does not depend on the cycles left after it. */
  lemma LeapToEvent(s: Sys, a: nat, b: nat)
    requires Sane(s.p) && UntilNext(s.p) <= a
    ensures Leap(s, a + b).0 == Leap(s, a).0 && Leap(s, a + b).1 == Leap(s, a).1 + b
  {
    hide HandleEvent, Refresh, LineByte;
    RefreshKeeps(s);
  }

  lemma {:induction false} RunAdds(s: Sys, a: nat, b: nat)
    requires Sane(s.p)
    ensures Run(s, a + b) == Run(Run(s, a), b)
    decreases a, if UntilNext(s.p) == 0 then 1 else 0
  {
    hide Leap, ForceOff, Sane, UntilNext, LineByte;
    if a == 0 || b == 0 {
    } else if !LcdOn(s.io) {
      ForceOffTwice(s);
    } else if UntilNext(s.p) <= a {
      LeapToEvent(s, a, b);
      RunAdds(Leap(s, a).0, Leap(s, a).1, b);
    } else {
      LeapSplits(s, a, b);
    }
  }

  /** However a span of cycles is split over calls, the unit and its registers, STAT and its
      interrupts included, end up the same. */
  lemma StepAdds(s: Sys, a: nat, b: nat)
    requires Sane(s.p)
    ensures Step(Step(s, a), b) == Step(s, a + b)
  {
    hide Run, ForceOff, Sane, StartLcd, LineByte;
    if a > 0 && b > 0 {
      if LcdOn(s.io) {
        StartKeeps(s);
        var s0 := if s.p.lcdWasOn then s else StartLcd(s);
        RunKeepsOn(s0, a);
        RunAdds(s0, a, b);
      } else {
        ForceOffTwice(s);
      }
    }
  }

  lemma StartKeeps(s: Sys)
    ensures var s' := StartLcd(s);
      && s'.p == Unit(0, 0, 2, false, false, true) && Sane(s'.p) && s'.io.lcdc == s.io.lcdc
      && s'.io.frames == s.io.frames && s'.io.vblanks == s.io.vblanks
  {
    hide SetMode;
    SetModeKeeps(Sys(Unit(0, 0, 0, false, false, true), s.io.(ly := 0)), 2);
  }

  lemma LeapKeepsOn(s: Sys, n: nat)
    requires Sane(s.p)
    ensures Leap(s, n).0.io.lcdc == s.io.lcdc && Leap(s, n).0.p.lcdWasOn == s.p.lcdWasOn
  {
    hide SetMode, EnterLine, Refresh, LineByte;
    RefreshKeeps(s);
    var s1 := Refresh(s);
    EventKeepsOn(s1);
    var step := if UntilNext(s1.p) < n then UntilNext(s1.p) else n;
    EventKeepsOn(s1.(p := s1.p.(dot := s1.p.dot + step)));
  }

  lemma EventKeepsOn(s: Sys)
    ensures HandleEvent(s).io.lcdc == s.io.lcdc && HandleEvent(s).p.lcdWasOn == s.p.lcdWasOn
  {
    hide SetMode, EnterLine;
    SetModeKeeps(s, 3);
    SetModeKeeps(s, 0);
    if s.p.mode == 0 || s.p.mode == 1 {
      var next := (s.p.ly + 1) % 0x100;
      EnterLineKeeps(s.(p := s.p.(dot := if s.p.dot >= DOTS_PER_LINE then s.p.dot - DOTS_PER_LINE else 0)),
                     if next >= TOTAL_LINES then 0 else next);
    }
  }

  lemma {:induction false} RunKeepsOn(s: Sys, n: nat)
    requires Sane(s.p) && LcdOn(s.io)
    ensures LcdOn(Run(s, n).io) && Run(s, n).p.lcdWasOn == s.p.lcdWasOn
    decreases n, if UntilNext(s.p) == 0 then 1 else 0
  {
    hide Leap, Sane, UntilNext;
    if n > 0 {
      LeapKeepsOn(s, n);
      RunKeepsOn(Leap(s, n).0, Leap(s, n).1);
    }
  }

  // ----- The dot-by-dot reference -----

  function Phase(p: Unit): nat {
    p.ly * DOTS_PER_LINE + p.dot
  }

  /** The mode at a dot of a line. */
  function ModeAt(ly: nat, dot: nat): bv8 {
    if ly >= VBLANK_START_LINE then 1
    else if dot < MODE2_CYCLES then 2
    else if dot < MODE2_CYCLES + MODE3_CYCLES then 3
    else 0
  }

  /** The unit is running and its mode is the one its position in the frame calls for. */
  predicate InStep(p: Unit) {
    p.lcdWasOn && p.ly < TOTAL_LINES && p.dot < DOTS_PER_LINE && p.mode == ModeAt(p.ly, p.dot)
  }

  /** One dot: refresh, move on, and act where a line or a mode begins. */
  function Dot(s: Sys): Sys {
    var s1 := Refresh(s);
    var dot := s.p.dot + 1;
    if dot == DOTS_PER_LINE then
      EnterLine(s1.(p := s1.p.(dot := 0)), if s.p.ly == TOTAL_LINES - 1 then 0 else s.p.ly + 1)
    else
      SetMode(s1.(p := s1.p.(dot := dot)), ModeAt(s.p.ly, dot))
  }

  function Dots(s: Sys, n: nat): Sys
    decreases n
  {
    if n == 0 then s else Dots(Dot(s), n - 1)
  }

  lemma DotIsRun(s: Sys)
    requires InStep(s.p) && LcdOn(s.io)
    ensures Sane(s.p) && UntilNext(s.p) > 0
    ensures Run(s, 1) == Dot(s) && InStep(Dot(s).p) && LcdOn(Dot(s).io)
    ensures Phase(Dot(s).p) == (if Phase(s.p) + 1 == CYCLES_PER_FRAME then 0 else Phase(s.p) + 1)
    ensures Dot(s).p.frameReady == (s.p.frameReady || Phase(s.p) + 1 == CYCLES_PER_FRAME)
    ensures Dot(s).io.frames == s.io.frames + (if Phase(s.p) + 1 == CYCLES_PER_FRAME then 1 else 0)
    ensures Dot(s).io.vblanks
         == s.io.vblanks + (if Phase(s.p) + 1 == VBLANK_START_LINE * DOTS_PER_LINE then 1 else 0)
    ensures VBlankRaised(Dot(s).io)
         == (VBlankRaised(s.io) || Phase(s.p) + 1 == VBLANK_START_LINE * DOTS_PER_LINE)
  {
    hide Dot, Leap, Run, ModeAt, VBlankRaised, LineByte;
    if s.p.dot + 1 == DOTS_PER_LINE { DotEndsLine(s); } else { DotInLine(s); }
    LeapIsDot(s);
    RunOnce(s);
    RunNothing(Dot(s));
  }

  lemma RunOnce(s: Sys)
    requires Sane(s.p) && LcdOn(s.io)
    ensures Run(s, 1) == Run(Leap(s, 1).0, Leap(s, 1).1)
  {
    hide Leap;
  }

  /** The last dot of a line. */
  lemma DotEndsLine(s: Sys)
    requires InStep(s.p) && s.p.dot + 1 == DOTS_PER_LINE
    ensures var s', ly := Dot(s), if s.p.ly == TOTAL_LINES - 1 then 0 else s.p.ly + 1;
      && InStep(s'.p) && s'.p.ly == ly && s'.p.dot == 0 && s'.io.lcdc == s.io.lcdc
      && s'.p.frameReady == (s.p.frameReady || ly == 0)
      && s'.io.frames == s.io.frames + (if ly == 0 then 1 else 0)
      && s'.io.vblanks == s.io.vblanks + (if ly == VBLANK_START_LINE then 1 else 0)
      && VBlankRaised(s'.io) == (VBlankRaised(s.io) || ly == VBLANK_START_LINE)
  {
    hide EnterLine, Refresh, VBlankRaised, LineByte;
    RefreshKeeps(s);
    EnterLineKeeps(Refresh(s).(p := Refresh(s).p.(dot := 0)), if s.p.ly == TOTAL_LINES - 1 then 0 else s.p.ly + 1);
  }

  /** Any other dot. */
  lemma DotInLine(s: Sys)
    requires InStep(s.p) && s.p.dot + 1 < DOTS_PER_LINE
    ensures var s' := Dot(s);
      && InStep(s'.p) && s'.p.ly == s.p.ly && s'.p.dot == s.p.dot + 1 && s'.io.lcdc == s.io.lcdc
      && s'.p.frameReady == s.p.frameReady && s'.io.frames == s.io.frames && s'.io.vblanks == s.io.vblanks
      && VBlankRaised(s'.io) == VBlankRaised(s.io)
  {
    hide SetMode, Refresh, VBlankRaised, ModeAt, LineByte;
    RefreshKeeps(s);
    SetModeKeeps(Refresh(s).(p := Refresh(s).p.(dot := s.p.dot + 1)), ModeAt(s.p.ly, s.p.dot + 1));
  }

  lemma LeapIsDot(s: Sys)
    requires InStep(s.p)
    ensures Sane(s.p) && UntilNext(s.p) > 0 && Leap(s, 1) == (Dot(s), 0)
  {
    hide EnterLine, Refresh, StatWith, Wants, LineByte;
    RefreshKeeps(s);
  }

  /** Jumping from event to event is moving dot by dot. */
  lemma {:induction false} RunIsDots(s: Sys, n: nat)
    requires InStep(s.p) && LcdOn(s.io)
    ensures Sane(s.p) && Run(s, n) == Dots(s, n)
    decreases n
  {
    hide Run, Dot, InStep, Sane, LineByte;
    if n == 0 {
      DotIsRun(s);
      RunNothing(s);
    } else {
      DotIsRun(s);
      RunAdds(s, 1, n - 1);
      RunIsDots(Dot(s), n - 1);
    }
  }

  lemma RunNothing(s: Sys)
    requires Sane(s.p)
    ensures Run(s, 0) == s
  {
  }

  // ----- The closed form -----

  const VBLANK_START := VBLANK_START_LINE * DOTS_PER_LINE

  lemma {:induction false} DotsForm(s: Sys, n: nat)
    requires InStep(s.p) && LcdOn(s.io)
    ensures var s' := Dots(s, n);
      && InStep(s'.p) && LcdOn(s'.io)
      && Phase(s'.p) == (Phase(s.p) + n) % CYCLES_PER_FRAME
      && s'.p.frameReady == (s.p.frameReady || Phase(s.p) + n >= CYCLES_PER_FRAME)
      && s'.io.frames == s.io.frames + (Phase(s.p) + n) / CYCLES_PER_FRAME
      && s'.io.vblanks == s.io.vblanks + VBlanksBy(Phase(s.p) + n) - VBlanksBy(Phase(s.p))
      && (VBlankRaised(s'.io) <==> VBlankRaised(s.io) || VBlanksBy(Phase(s.p) + n) > VBlanksBy(Phase(s.p)))
    decreases n
  {
    hide Dot, InStep, VBlanksBy, Phase, VBlankRaised, LineByte;
    PhaseInFrame(s.p);
    if n > 0 {
      DotIsRun(s);
      DotsForm(Dot(s), n - 1);
      var ph := Phase(s.p);
      if ph + 1 == CYCLES_PER_FRAME {
        DivAddsMultiple(1, CYCLES_PER_FRAME, n - 1);
        NextFrameVBlanks(n - 1);
      }
      VBlankStep(ph);
      NoFewerVBlanks(Phase(Dot(s).p), n - 1);
    }
  }

  /** VBlank starts among the dots 1 to `x` counted from the top of a frame. */
  function VBlanksBy(x: nat): nat {
    (x + (CYCLES_PER_FRAME - VBLANK_START)) / CYCLES_PER_FRAME
  }

  lemma NextFrameVBlanks(x: nat)
    ensures VBlanksBy(x + CYCLES_PER_FRAME) == VBlanksBy(x) + 1
  {
    DivAddsMultiple(1, CYCLES_PER_FRAME, x + (CYCLES_PER_FRAME - VBLANK_START));
  }

  lemma NoFewerVBlanks(x: nat, n: nat)
    ensures VBlanksBy(x + n) >= VBlanksBy(x)
  {
    var y := x + (CYCLES_PER_FRAME - VBLANK_START);
    var q, r := y / CYCLES_PER_FRAME, y % CYCLES_PER_FRAME;
    assert y == q * CYCLES_PER_FRAME + r;
    DivAddsMultiple(q, CYCLES_PER_FRAME, r + n);
  }

  lemma VBlankStep(x: nat)
    requires x < CYCLES_PER_FRAME
    ensures VBlanksBy(x + 1) == VBlanksBy(x) + (if x + 1 == VBLANK_START then 1 else 0)
    ensures VBlanksBy(0) == 0 && VBlanksBy(CYCLES_PER_FRAME) == 1
  {
  }

  lemma PhaseInFrame(p: Unit)
    requires InStep(p)
    ensures Phase(p) < CYCLES_PER_FRAME
  {
    hide ModeAt;
  }

  /** With the LCD on and no register written, the position in the frame advances modulo 70224
      cycles, the mode is a function of it, frames complete exactly where it wraps, and the VBlank
      interrupt is raised exactly when line 144 begins. */
  lemma ClosedForm(s: Sys, n: nat)
    requires InStep(s.p) && LcdOn(s.io)
    ensures Sane(s.p)
    ensures var s' := Step(s, n);
      && InStep(s'.p)
      && Phase(s'.p) == (Phase(s.p) + n) % CYCLES_PER_FRAME
      && s'.p.frameReady == (s.p.frameReady || Phase(s.p) + n >= CYCLES_PER_FRAME)
      && s'.io.frames == s.io.frames + (Phase(s.p) + n) / CYCLES_PER_FRAME
      && s'.io.vblanks == s.io.vblanks + VBlanksBy(Phase(s.p) + n) - VBlanksBy(Phase(s.p))
      && (VBlankRaised(s'.io) <==> VBlankRaised(s.io) || VBlanksBy(Phase(s.p) + n) > VBlanksBy(Phase(s.p)))
  {
    hide Run, Dots, Phase, VBlanksBy, ModeAt, VBlankRaised, LineByte;
    RunIsDots(s, n);
    DotsForm(s, n);
    RunNothing(s);
  }

  // ----- Over whole runs -----

  /** What every run keeps: the unit is off and parked, or in step. */
  predicate Good(p: Unit) {
    if p.lcdWasOn then InStep(p) else p.mode == 0 && p.dot == 0
  }

  /** A leap from a unit in step ends in step, and never starts on a boundary: the loop's branch
      for that is dead and its subtractions never go below zero. */
  lemma LeapStaysInStep(s: Sys, n: nat)
    requires InStep(s.p) && LcdOn(s.io) && n > 0
    ensures Sane(s.p) && UntilNext(s.p) > 0 && Leap(s, n).1 < n && InStep(Leap(s, n).0.p)
  {
    hide Leap, Run, Dots, Phase, VBlanksBy, ModeAt, LineByte;
    DotIsRun(s);
    LeapIsRun(s, n);
    var k := if UntilNext(s.p) < n then UntilNext(s.p) else n;
    RunIsDots(s, k);
    DotsForm(s, k);
  }

  lemma LeapIsRun(s: Sys, n: nat)
    requires Sane(s.p) && UntilNext(s.p) > 0 && LcdOn(s.io) && n > 0
    ensures var k := if UntilNext(s.p) < n then UntilNext(s.p) else n;
      Leap(s, n) == (Run(s, k), n - k)
  {
    hide HandleEvent, Refresh, LineByte;
    RefreshKeeps(s);
    var k := if UntilNext(s.p) < n then UntilNext(s.p) else n;
    if UntilNext(s.p) <= n { LeapToEvent(s, k, n - k); }
    assert Leap(s, k).1 == 0;
    assert Run(s, k) == Run(Leap(s, k).0, 0) == Leap(s, k).0;
  }

  lemma StepStaysGood(s: Sys, n: nat)
    requires Good(s.p)
    ensures Sane(s.p) && Good(Step(s, n).p)
  {
    hide Run, StartLcd, StatWith, ModeAt, LineByte;
    GoodIsSane(s.p);
    if n > 0 && LcdOn(s.io) {
      StartKeeps(s);
      var s0 := if s.p.lcdWasOn then s else StartLcd(s);
      assert InStep(s0.p) by { StartIsInStep(s); }
      RunIsDots(s0, n);
      DotsForm(s0, n);
    }
  }

  lemma GoodIsSane(p: Unit)
    requires Good(p)
    ensures Sane(p) && UntilNext(p) > 0
  {
  }

  lemma StartIsInStep(s: Sys)
    ensures InStep(StartLcd(s).p) && Phase(StartLcd(s).p) == 0
  {
    hide SetMode;
    StartKeeps(s);
  }

  /** Between steps the CPU may write any register the unit shares with it, and a frame may be taken. */
  datatype Act = Writes(io: Io) | TakeFrame | Cycles(n: nat)

  function Play(s: Sys, acts: seq<Act>): (r: Sys)
    requires Good(s.p)
    ensures Good(r.p)
    decreases |acts|
  {
    if acts == [] then s
    else match acts[0]
      case Writes(io) => Play(s.(io := io), acts[1..])
      case TakeFrame => Play(s.(p := s.p.(frameReady := false)), acts[1..])
      case Cycles(n) =>
        StepStaysGood(s, n);
        Play(Step(s, n), acts[1..])
  }
}
