/**
 What STAT, LY and the interrupt flags show after any number of dots, read off the position in the
 frame: 456 dots a line, 154 lines a frame, modes 2, 3 and 0 from dots 0, 80 and 252 of the first 144
 lines and mode 1 after them.
 */
module PpuStatus {
  import opened Bytes
  import opened Arithmetic
  import opened Ppu

  /** The mode at a position in the frame. */
  function ModeDue(x: nat): bv8 {
    if x >= 65664 then 1 else if x % 456 < 80 then 2 else if x % 456 < 252 then 3 else 0
  }

  /** What asks for the STAT interrupt when the position becomes `x`: mode 2 or mode 1 beginning with a
      line, mode 0 beginning within one, or a line that LYC names. */
  predicate Asks(stat: bv8, lyc: bv8, x: nat) {
    || (x % 456 == 0 && x < 65664 && stat & 0x20 != 0)
    || (x % 456 == 252 && x < 65664 && stat & 0x08 != 0)
    || (x == 65664 && stat & 0x10 != 0)
    || (x % 456 == 0 && x / 456 == lyc as nat && stat & 0x40 != 0)
  }

  predicate AsksAfter(stat: bv8, lyc: bv8, x: nat, d: nat) {
    Asks(stat, lyc, (x + d) % 70224)
  }

  /** Something asks among the `n` dots after position `x`. */
  ghost predicate AskedAmong(stat: bv8, lyc: bv8, x: nat, n: nat) {
    exists d: nat :: 0 < d <= n && AsksAfter(stat, lyc, x, d)
  }

  predicate StatRaised(io: Io) {
    io.flags & 0x02 != 0
  }

  /** The bits of STAT above the mode and the comparison. */
  function Enables(stat: bv8): bv8 {
    stat & 0xF8
  }

  lemma LineByteIs(ly: nat, lyc: bv8)
    requires ly < 0x100
    ensures LineByte(ly) == lyc <==> ly == lyc as nat
    ensures LineByte(ly) as nat == ly
  {
    ByteRoundTrip(ly);
  }

  // ----- The parts -----

  /** The parts of STAT after a store of mode and comparison. */
  lemma StatParts(stat: bv8, mode: bv8, equal: bool)
    requires mode <= 3
    ensures var r := StatWith(stat, mode, equal);
      r & 0x03 == mode && (r & 0x04 != 0 <==> equal) && Enables(r) == Enables(stat)
  {
  }

  lemma EnablesTell(a: bv8, b: bv8)
    requires Enables(a) == Enables(b)
    ensures a & 0x20 == b & 0x20 && a & 0x08 == b & 0x08 && a & 0x10 == b & 0x10 && a & 0x40 == b & 0x40
  {
  }

  lemma RaiseSets(io: Io)
    ensures StatRaised(Raise(io, 0x02)) && StatRaised(Raise(io, 0x01)) == StatRaised(io)
  {
  }

  /** What shows agrees with the unit. */
  predicate Shows(s: Sys) {
    && s.io.stat & 0x03 == s.p.mode && (s.io.stat & 0x04 != 0 <==> s.p.lycEqual)
    && s.io.ly == LineByte(s.p.ly)
  }

  lemma RefreshShows(s: Sys)
    requires s.p.mode <= 3 && s.p.ly < 0x100
    ensures var s' := Refresh(s);
      && s'.io.stat & 0x03 == s.p.mode && (s'.io.stat & 0x04 != 0 <==> s'.p.lycEqual)
      && s'.p == s.p.(lycEqual := s.p.ly == s.io.lyc as nat)
      && Enables(s'.io.stat) == Enables(s.io.stat) && s'.io.ly == s.io.ly && s'.io.lyc == s.io.lyc
      && (StatRaised(s'.io) <==>
            StatRaised(s.io) || (!s.p.lycEqual && s.p.ly == s.io.lyc as nat && s.io.stat & 0x40 != 0))
  {
    hide StatWith, StatRaised, Enables, LineByte, Raise;
    LineByteIs(s.p.ly, s.io.lyc);
    var equal := LineByte(s.p.ly) == s.io.lyc;
    StatParts(s.io.stat, s.p.mode, equal);
    SameFlags(s.io, s.io.(stat := StatWith(s.io.stat, s.p.mode, equal)));
    RaiseSets(s.io.(stat := StatWith(s.io.stat, s.p.mode, equal)));
    RaiseOnlyFlags(s.io.(stat := StatWith(s.io.stat, s.p.mode, equal)), 0x02);
  }

  lemma SameFlags(io: Io, io': Io)
    requires io.flags == io'.flags
    ensures StatRaised(io) == StatRaised(io')
  {
  }

  lemma RaiseOnlyFlags(io: Io, bit: bv8)
    ensures Raise(io, bit) == io.(flags := Raise(io, bit).flags)
  {
  }

  /** Entering a mode shows it in STAT, and asks for the interrupt by STAT bit 3, 4 or 5 for mode 0, 1
      or 2; mode 3 never does. */
  lemma SetModeShows(s: Sys, mode: bv8)
    requires s.io.stat & 0x03 == s.p.mode && (s.io.stat & 0x04 != 0 <==> s.p.lycEqual) && mode <= 3
    ensures var s' := SetMode(s, mode);
      && s'.p == s.p.(mode := mode) && s'.io.stat & 0x03 == mode && (s'.io.stat & 0x04 != 0 <==> s.p.lycEqual)
      && Enables(s'.io.stat) == Enables(s.io.stat) && s'.io.ly == s.io.ly && s'.io.lyc == s.io.lyc
      && (StatRaised(s'.io) <==>
            || StatRaised(s.io)
            || (s.p.mode != mode && ((mode == 0 && s.io.stat & 0x08 != 0) || (mode == 1 && s.io.stat & 0x10 != 0)
                                      || (mode == 2 && s.io.stat & 0x20 != 0))))
  {
    hide StatWith, StatRaised, Enables, Raise;
    var io := s.io.(stat := StatWith(s.io.stat, mode, s.p.lycEqual));
    StatParts(s.io.stat, mode, s.p.lycEqual);
    SameFlags(s.io, io);
    RaiseSets(io);
    RaiseOnlyFlags(io, 0x02);
  }

  // ----- One dot -----

  /** A unit in step whose registers show it. */
  predicate Known(s: Sys) {
    && InStep(s.p) && LcdOn(s.io) && Shows(s) && (s.p.lycEqual <==> s.p.ly == s.io.lyc as nat)
  }

  lemma PhaseParts(ly: nat, dot: nat)
    requires dot < 456
    ensures (ly * 456 + dot) % 456 == dot && (ly * 456 + dot) / 456 == ly
    ensures ly * 456 + dot < 65664 <==> ly < 144
  {
    QuotientIs(ly * 456 + dot, ly, 456, dot);
  }

  /** What `s'` shows after one more dot from `s`. */
  predicate Advanced(s: Sys, s': Sys) {
    && Known(s') && Enables(s'.io.stat) == Enables(s.io.stat) && s'.io.lyc == s.io.lyc
    && (StatRaised(s'.io) <==> StatRaised(s.io) || Asks(s.io.stat, s.io.lyc, Phase(s'.p)))
  }

  /** A line begins. */
  lemma LineShows(s: Sys, ly: nat)
    requires s.p.mode == (if ly == 0 || ly > 144 then 1 else 0) && s.p.lcdWasOn && s.p.dot == 0 && ly < 154
    requires LcdOn(s.io) && s.io.stat & 0x03 == s.p.mode && (ly == s.io.lyc as nat ==> !s.p.lycEqual)
    ensures Advanced(s, EnterLine(s, ly)) && EnterLine(s, ly).p.ly == ly && EnterLine(s, ly).p.dot == 0
  {
    hide Refresh, SetMode, StatRaised, Enables, LineByte, Raise, BeginLine, Known, Asks;
    EnterLineKeeps(s, ly);
    LineAsks(s.io.stat, s.io.lyc, ly);
    PhaseParts(ly, 0);
    LineByteIs(ly, s.io.lyc);
    var s0 := Sys(s.p.(ly := ly), s.io.(ly := LineByte(ly)));
    SameFlags(s.io, s0.io);
    RefreshShows(s0);
    var s1 := Refresh(s0);
    EnablesTell(s.io.stat, s1.io.stat);
    BeginShows(s1);
    LineIsKnown(EnterLine(s, ly), ly);
  }

  /** What asks at the first dot of a line. */
  lemma LineAsks(stat: bv8, lyc: bv8, ly: nat)
    requires ly < 154
    ensures Asks(stat, lyc, ly * 456)
       <==> || (ly < 144 && stat & 0x20 != 0) || (ly == 144 && stat & 0x10 != 0)
            || (ly == lyc as nat && stat & 0x40 != 0)
  {
    PhaseParts(ly, 0);
  }

  lemma LineIsKnown(s': Sys, ly: nat)
    requires ly < 154 && s'.p.ly == ly && s'.p.dot == 0 && s'.p.lcdWasOn && LcdOn(s'.io)
    requires s'.p.mode == (if ly < 144 then 2 else 1) && s'.io.stat & 0x03 == s'.p.mode
    requires (s'.io.stat & 0x04 != 0 <==> s'.p.lycEqual) && s'.io.ly == LineByte(ly)
    requires s'.p.lycEqual <==> ly == s'.io.lyc as nat
    ensures Known(s')
  {
    hide LineByte;
  }

  lemma BeginShows(s: Sys)
    requires s.p.ly < 154 && s.p.mode == (if s.p.ly == 0 || s.p.ly > 144 then 1 else 0)
    requires s.io.stat & 0x03 == s.p.mode && (s.io.stat & 0x04 != 0 <==> s.p.lycEqual)
    ensures var s', ly := BeginLine(s), s.p.ly;
      && s'.io.stat & 0x03 == s'.p.mode && (s'.io.stat & 0x04 != 0 <==> s'.p.lycEqual)
      && s'.p.mode == (if ly < 144 then 2 else 1) && s'.p.lycEqual == s.p.lycEqual
      && Enables(s'.io.stat) == Enables(s.io.stat) && s'.io.ly == s.io.ly && s'.io.lyc == s.io.lyc
      && (StatRaised(s'.io) <==>
            || StatRaised(s.io)
            || (ly < 144 && s.io.stat & 0x20 != 0) || (ly == 144 && s.io.stat & 0x10 != 0))
  {
    hide SetMode, StatRaised, Enables, Raise;
    if s.p.ly == 0 {
      var s1 := Sys(s.p.(frameReady := true), s.io.(frames := s.io.frames + 1));
      SameFlags(s.io, s1.io);
      SetModeShows(s1, 2);
    } else if s.p.ly < 144 {
      SetModeShows(s, 2);
    } else if s.p.ly == 144 {
      var s1 := s.(io := Raise(s.io, 0x01).(vblanks := s.io.vblanks + 1));
      RaiseOnlyFlags(s.io, 0x01);
      RaiseSets(s.io);
      SameFlags(Raise(s.io, 0x01), s1.io);
      SetModeShows(s1, 1);
    }
  }

  lemma DotShows(s: Sys)
    requires Known(s)
    ensures Advanced(s, Dot(s)) && Phase(Dot(s).p) == (Phase(s.p) + 1) % 70224
  {
    hide Refresh, SetMode, EnterLine, StatRaised, Enables, LineByte, Known, Asks;
    KnownParts(s);
    RefreshNothing(s);
    PhaseParts(s.p.ly, s.p.dot);
    if s.p.dot + 1 == 456 {
      var next := if s.p.ly == 153 then 0 else s.p.ly + 1;
      var s1 := s.(p := s.p.(dot := 0));
      LineShows(s1, next);
    } else {
      WithinLine(s);
    }
  }

  lemma KnownParts(s: Sys)
    requires Known(s)
    ensures s.p.ly < 154 && s.p.dot < 456 && s.p.lcdWasOn && LcdOn(s.io) && Shows(s)
    ensures s.p.lycEqual <==> s.p.ly == s.io.lyc as nat
    ensures s.p.mode == if s.p.ly >= 144 then 1 else if s.p.dot < 80 then 2 else if s.p.dot < 252 then 3 else 0
  {
  }

  /** A refresh of registers that show the unit changes nothing. */
  lemma RefreshNothing(s: Sys)
    requires Known(s)
    ensures Refresh(s) == s
  {
    hide LineByte, Raise, ModeAt;
    LineByteIs(s.p.ly, s.io.lyc);
    StatIsShown(s.io.stat, s.p.mode, s.p.lycEqual);
  }

  lemma StatIsShown(stat: bv8, mode: bv8, equal: bool)
    requires stat & 0x03 == mode && (stat & 0x04 != 0 <==> equal)
    ensures StatWith(stat, mode, equal) == stat
  {
  }

  /** A dot that ends no line: where mode 3 or mode 0 begins, the mode is set. */
  lemma WithinLine(s: Sys)
    requires Known(s) && s.p.dot + 1 < 456
    ensures var s' := SetMode(s.(p := s.p.(dot := s.p.dot + 1)), ModeAt(s.p.ly, s.p.dot + 1));
      Advanced(s, s') && s'.p.ly == s.p.ly && s'.p.dot == s.p.dot + 1
  {
    hide SetMode, StatRaised, Enables, LineByte;
    PhaseParts(s.p.ly, s.p.dot + 1);
    var s1, mode := s.(p := s.p.(dot := s.p.dot + 1)), ModeAt(s.p.ly, s.p.dot + 1);
    SetModeShows(s1, mode);
    SetModeKeeps(s1, mode);
  }

  // ----- Any number of dots -----

  /** What everything shows `n` dots after `s`. */
  ghost predicate Tells(s: Sys, n: nat, s': Sys) {
    && Known(s') && Enables(s'.io.stat) == Enables(s.io.stat) && s'.io.lyc == s.io.lyc
    && Phase(s'.p) == (Phase(s.p) + n) % 70224
    && (StatRaised(s'.io) <==> StatRaised(s.io) || AskedAmong(s.io.stat, s.io.lyc, Phase(s.p), n))
  }

  lemma AskedOneMore(stat: bv8, stat': bv8, lyc: bv8, x: nat, n: nat)
    requires Enables(stat) == Enables(stat')
    ensures AskedAmong(stat, lyc, x, n + 1)
       <==> AsksAfter(stat, lyc, x, 1) || AskedAmong(stat', lyc, (x + 1) % 70224, n)
  {
    hide Asks;
    EnablesTell(stat, stat');
    if AskedAmong(stat, lyc, x, n + 1) {
      var d: nat :| 0 < d <= n + 1 && AsksAfter(stat, lyc, x, d);
      if d > 1 {
        FrameWraps(x, d - 1);
        SameAsks(stat, stat', lyc, (x + d) % 70224);
        assert AsksAfter(stat', lyc, (x + 1) % 70224, d - 1);
      }
    }
    if AskedAmong(stat', lyc, (x + 1) % 70224, n) {
      var d: nat :| 0 < d <= n && AsksAfter(stat', lyc, (x + 1) % 70224, d);
      FrameWraps(x, d);
      SameAsks(stat, stat', lyc, (x + 1 + d) % 70224);
      assert AsksAfter(stat, lyc, x, d + 1);
    }
  }

  lemma FrameWraps(x: nat, d: nat)
    ensures ((x + 1) % 70224 + d) % 70224 == (x + 1 + d) % 70224
  {
  }

  lemma SameAsks(stat: bv8, stat': bv8, lyc: bv8, x: nat)
    requires Enables(stat) == Enables(stat')
    ensures Asks(stat, lyc, x) == Asks(stat', lyc, x)
  {
    hide Enables;
    EnablesTell(stat, stat');
  }

  lemma {:induction false} DotsShow(s: Sys, n: nat)
    requires Known(s)
    ensures Tells(s, n, Dots(s, n))
    decreases n
  {
    hide Known, Dot, Enables, StatRaised, AskedAmong, Asks, Phase;
    if n == 0 {
      KnownPhase(s);
      NoneAsked(s.io.stat, s.io.lyc, Phase(s.p));
    } else {
      DotShows(s);
      DotsShow(Dot(s), n - 1);
      AskedOneMore(s.io.stat, Dot(s).io.stat, s.io.lyc, Phase(s.p), n - 1);
      FrameWraps(Phase(s.p), n - 1);
    }
  }

  lemma KnownPhase(s: Sys)
    requires Known(s)
    ensures Phase(s.p) % 70224 == Phase(s.p)
  {
    hide Shows, ModeAt;
  }

  lemma NoneAsked(stat: bv8, lyc: bv8, x: nat)
    ensures !AskedAmong(stat, lyc, x, 0)
  {
  }

  // ----- Steps -----

  /** One refresh brings STAT up to date, and the dots after it are the same. */
  lemma RefreshFirst(s: Sys, n: nat)
    requires n > 0
    ensures Dots(s, n) == Dots(Refresh(s), n)
  {
    hide Refresh, Fresh, EnterLine, SetMode;
    RefreshKeeps(s);
    RefreshIsFresh(s);
    FreshStays(Refresh(s));
    assert Dot(Refresh(s)) == Dot(s);
  }

  lemma RefreshedIsKnown(s: Sys)
    requires InStep(s.p) && LcdOn(s.io) && s.io.ly as nat == s.p.ly
    ensures Known(Refresh(s)) && Phase(Refresh(s).p) == Phase(s.p)
    ensures Refresh(s).io.ly == s.io.ly && Refresh(s).io.lyc == s.io.lyc
    ensures Enables(Refresh(s).io.stat) == Enables(s.io.stat)
    ensures StatRaised(Refresh(s).io) <==>
      StatRaised(s.io) || (!s.p.lycEqual && s.io.ly == s.io.lyc && s.io.stat & 0x40 != 0)
  {
    hide Refresh, StatRaised, Enables, LineByte;
    RefreshShows(s);
    RefreshKeeps(s);
    LineByteIs(s.p.ly, s.io.ly);
    LineByteIs(s.p.ly, s.io.lyc);
  }

  /** What a running unit shows in its registers. */
  predicate ShowsAt(io: Io, x: nat) {
    && io.stat & 0x03 == ModeDue(x) && io.ly as nat == x / 456
    && (io.stat & 0x04 != 0 <==> io.ly == io.lyc)
  }

  lemma KnownShows(s: Sys)
    requires Known(s)
    ensures ShowsAt(s.io, Phase(s.p))
  {
    hide LineByte;
    KnownParts(s);
    PhaseParts(s.p.ly, s.p.dot);
    LineByteIs(s.p.ly, s.io.lyc);
  }

  /** With the LCD on, after any step STAT and LY show the position in the frame, the enables in STAT are
      as they were, and the STAT interrupt is up if it was, if the line's comparison was due, or if
      anything among the dots passed asked for it. */
  lemma StatusAfter(s: Sys, n: nat)
    requires InStep(s.p) && s.io.lcdc & 0x80 != 0 && s.io.ly as nat == s.p.ly && n > 0
    ensures Sane(s.p)
    ensures var s', x := Step(s, n), Phase(s.p);
      && Phase(s'.p) == (x + n) % 70224 && ShowsAt(s'.io, (x + n) % 70224)
      && Enables(s'.io.stat) == Enables(s.io.stat) && s'.io.lyc == s.io.lyc
      && (StatRaised(s'.io) <==>
            || StatRaised(s.io) || (!s.p.lycEqual && s.io.ly == s.io.lyc && s.io.stat & 0x40 != 0)
            || AskedAmong(s.io.stat, s.io.lyc, x, n))
  {
    hide Run, Dots, Refresh, Known, Enables, StatRaised, AskedAmong, Asks, Phase, ShowsAt, InStep;
    RunIsDots(s, n);
    StepRuns(s, n);
    RefreshFirst(s, n);
    RefreshedIsKnown(s);
    DotsShow(Refresh(s), n);
    KnownShows(Dots(Refresh(s), n));
    SameAsked(Refresh(s).io.stat, s.io.stat, s.io.lyc, Phase(s.p), n);
  }

  lemma StepRuns(s: Sys, n: nat)
    requires InStep(s.p) && LcdOn(s.io) && n > 0
    ensures Sane(s.p) && Step(s, n) == Run(s, n)
  {
    hide Run;
  }

  lemma SameAsked(stat: bv8, stat': bv8, lyc: bv8, x: nat, n: nat)
    requires Enables(stat) == Enables(stat')
    ensures AskedAmong(stat, lyc, x, n) == AskedAmong(stat', lyc, x, n)
  {
    hide Enables, Asks;
    forall d: nat
      ensures AsksAfter(stat, lyc, x, d) == AsksAfter(stat', lyc, x, d)
    {
      SameAsks(stat, stat', lyc, (x + d) % 70224);
    }
  }

  /** Switching the LCD on begins a frame at its first dot, in mode 2. */
  lemma SwitchedOn(s: Sys, n: nat)
    requires Sane(s.p) && s.io.lcdc & 0x80 != 0 && !s.p.lcdWasOn && n > 0
    ensures var s' := Step(s, n);
      && Phase(s'.p) == n % 70224 && ShowsAt(s'.io, n % 70224)
      && Enables(s'.io.stat) == Enables(s.io.stat) && s'.io.lyc == s.io.lyc
      && (StatRaised(s'.io) <==>
            || StatRaised(s.io) || s.io.stat & 0x20 != 0 || (s.io.lyc == 0 && s.io.stat & 0x40 != 0)
            || AskedAmong(s.io.stat, s.io.lyc, 0, n))
  {
    hide Run, StartLcd, Enables, StatRaised, AskedAmong, Asks, ShowsAt;
    StartShows(s);
    StartIsInStep(s);
    StatusAfter(StartLcd(s), n);
    StepRuns(StartLcd(s), n);
    SameAsked(StartLcd(s).io.stat, s.io.stat, s.io.lyc, 0, n);
    EnablesTell(StartLcd(s).io.stat, s.io.stat);
  }

  lemma StartShows(s: Sys)
    ensures var s' := StartLcd(s);
      && LcdOn(s'.io) == LcdOn(s.io) && s'.io.ly == 0 && s'.p.ly == 0 && !s'.p.lycEqual && s'.io.lyc == s.io.lyc
      && Enables(s'.io.stat) == Enables(s.io.stat)
      && (StatRaised(s'.io) <==> StatRaised(s.io) || s.io.stat & 0x20 != 0)
  {
    hide StatWith, StatRaised, Enables, Raise;
    var io := s.io.(ly := 0);
    var io' := io.(stat := StatWith(io.stat, 2, false));
    StatParts(io.stat, 2, false);
    SameFlags(s.io, io');
    RaiseSets(io');
    RaiseOnlyFlags(io', 0x02);
  }

  /** Switching it off parks the unit at line 0 in mode 0, with the comparison made and no interrupt. */
  lemma SwitchedOff(s: Sys, n: nat)
    requires Sane(s.p) && s.io.lcdc & 0x80 == 0 && n > 0
    ensures var s' := Step(s, n);
      && s'.p == Unit(0, 0, 0, s.io.lyc == 0, false, false)
      && s'.io.ly == 0 && s'.io.stat & 0x03 == 0 && (s'.io.stat & 0x04 != 0 <==> s.io.lyc == 0)
      && Enables(s'.io.stat) == Enables(s.io.stat) && s'.io.flags == s.io.flags
  {
    hide StatWith, Enables;
    StatParts(s.io.stat, 0, s.io.lyc == 0);
  }

  // ----- Frames and interrupt lines -----

  /** With the LCD on a frame is complete once the position passes its end, and the VBlank interrupt, bit 0
      of IF, is up if it was or line 144 began among the dots passed. */
  lemma FramesAfter(s: Sys, n: nat)
    requires InStep(s.p) && s.io.lcdc & 0x80 != 0
    ensures Sane(s.p)
    ensures var s', x := Step(s, n), Phase(s.p);
      && s'.p.frameReady == (s.p.frameReady || x + n >= 70224)
      && (s'.io.flags & 0x01 != 0 <==> s.io.flags & 0x01 != 0 || (x + n + 4560) / 70224 > (x + 4560) / 70224)
  {
    hide Step, Phase, InStep;
    ClosedForm(s, n);
  }

  /** From power-on the first step with the LCD on begins a frame. */
  lemma FirstFrame(io: Io, n: nat)
    requires io.lcdc & 0x80 != 0 && n > 0
    ensures var s' := Step(Sys(Idle(), io), n);
      Phase(s'.p) == n % 70224 && ShowsAt(s'.io, n % 70224) && s'.p.frameReady == (n >= 70224)
  {
    hide Run, StartLcd, ShowsAt;
    var s := Sys(Idle(), io);
    SwitchedOn(s, n);
    StartIsInStep(s);
    StartShows(s);
    StartReady(s);
    FramesAfter(StartLcd(s), n);
    StepRuns(StartLcd(s), n);
  }

  lemma StartReady(s: Sys)
    ensures !StartLcd(s).p.frameReady
  {
    hide StatWith, Wants;
  }

  /** Interrupt flags are only ever set, and only bits 0 and 1. */
  predicate OnlyRaises(before: bv8, after: bv8) {
    before & 0xE0 == 0xE0 ==> after & 0xFC == before & 0xFC && after & before == before
  }

  lemma RaisesThen(a: bv8, b: bv8, c: bv8)
    requires OnlyRaises(a, b) && OnlyRaises(b, c)
    ensures OnlyRaises(a, c)
  {
  }

  lemma RaisesOne(io: Io, bit: bv8)
    requires bit == 0x01 || bit == 0x02
    ensures OnlyRaises(io.flags, Raise(io, bit).flags) && OnlyRaises(io.flags, io.flags)
  {
  }

  lemma RefreshRaises(s: Sys, mode: bv8)
    ensures OnlyRaises(s.io.flags, Refresh(s).io.flags) && OnlyRaises(s.io.flags, SetMode(s, mode).io.flags)
  {
    hide OnlyRaises, Raise, StatWith, Wants, LineByte;
    RaisesOne(s.io.(stat := StatWith(s.io.stat, s.p.mode, LineByte(s.p.ly) == s.io.lyc)), 0x02);
    RaisesOne(s.io.(stat := StatWith(s.io.stat, mode, s.p.lycEqual)), 0x02);
  }

  lemma BeginRaises(s: Sys)
    ensures OnlyRaises(s.io.flags, BeginLine(s).io.flags)
  {
    hide OnlyRaises, Raise, SetMode;
    RaisesOne(s.io, 0x01);
    if s.p.ly == 0 {
      RefreshRaises(Sys(s.p.(frameReady := true), s.io.(frames := s.io.frames + 1)), 2);
    } else if s.p.ly == VBLANK_START_LINE {
      var s1 := s.(io := Raise(s.io, 0x01).(vblanks := s.io.vblanks + 1));
      RefreshRaises(s1, 1);
      RaisesThen(s.io.flags, s1.io.flags, SetMode(s1, 1).io.flags);
    } else {
      RefreshRaises(s, 2);
    }
  }

  lemma DotRaises(s: Sys)
    ensures OnlyRaises(s.io.flags, Dot(s).io.flags)
  {
    hide OnlyRaises, Refresh, SetMode, BeginLine, ModeAt;
    RefreshRaises(s, 0);
    var s1 := Refresh(s);
    if s.p.dot + 1 == DOTS_PER_LINE {
      var ly := if s.p.ly == TOTAL_LINES - 1 then 0 else s.p.ly + 1;
      var s2 := s1.(p := s1.p.(dot := 0, ly := ly), io := s1.io.(ly := LineByte(ly)));
      RefreshRaises(s2, 0);
      BeginRaises(Refresh(s2));
      RaisesThen(s1.io.flags, Refresh(s2).io.flags, BeginLine(Refresh(s2)).io.flags);
    } else {
      RefreshRaises(s1.(p := s1.p.(dot := s.p.dot + 1)), ModeAt(s.p.ly, s.p.dot + 1));
    }
    RaisesThen(s.io.flags, s1.io.flags, Dot(s).io.flags);
  }

  lemma {:induction false} DotsRaise(s: Sys, n: nat)
    ensures OnlyRaises(s.io.flags, Dots(s, n).io.flags)
    decreases n
  {
    hide OnlyRaises, Dot, Raise;
    if n == 0 {
      RaisesOne(s.io, 0x01);
    } else {
      DotRaises(s);
      DotsRaise(Dot(s), n - 1);
      RaisesThen(s.io.flags, Dot(s).io.flags, Dots(Dot(s), n - 1).io.flags);
    }
  }

  /** From a unit in step or switched off, whatever is written to LCDC: every step leaves the serial, timer
      and joypad lines of IF and its unused bits alone, and clears neither of its own two. */
  lemma OtherLinesStay(s: Sys, n: nat)
    requires Sane(s.p) && (s.p.lcdWasOn ==> InStep(s.p)) && s.io.flags & 0xE0 == 0xE0
    ensures var flags := Step(s, n).io.flags;
      flags & 0xFC == s.io.flags & 0xFC && flags & s.io.flags == s.io.flags
  {
    hide OnlyRaises, Run, Dots, SetMode, InStep, Raise, StatWith;
    RaisesOne(s.io, 0x01);
    if n > 0 && LcdOn(s.io) {
      StartIsInStep(s);
      StartShows(s);
      var s1 := if s.p.lcdWasOn then s else StartLcd(s);
      RefreshRaises(Sys(Unit(0, 0, 0, false, false, true), s.io.(ly := 0)), 2);
      RunIsDots(s1, n);
      DotsRaise(s1, n);
      RaisesThen(s.io.flags, s1.io.flags, Dots(s1, n).io.flags);
    }
    Spelled(s.io.flags, Step(s, n).io.flags);
  }

  lemma Spelled(a: bv8, b: bv8)
    requires OnlyRaises(a, b) && a & 0xE0 == 0xE0
    ensures b & 0xFC == a & 0xFC && b & a == a
  {
  }
}
