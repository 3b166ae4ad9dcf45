/**
 The picture unit's step as a client of the bus: a program of register calls. Run against the bus it
 computes the unit's step function on the bus's registers and touches nothing else.
 */
module PpuClient {
  import opened RingLayout
  import opened MemoryBus
  import opened Core
  import opened Lanes
  import P = Ppu

  const LCDC: RegIndex := 0x40
  const STAT: RegIndex := 0x41
  const LYC: RegIndex := 0x45

  /** The unit between two calls, with the counts that nothing reads. */
  datatype Held = Held(unit: P.Unit, frames: nat, vblanks: nat)

  /** What remains to be done: calls, each continued with its answer. */
  datatype Prog =
    | End(held: Held)
    | Get(reg: RegIndex, got: bv8 -> Prog) | GetFlags(got: bv8 -> Prog)
    | Put(reg: RegIndex, value: bv8, next: Prog) | PutFlags(value: bv8, next: Prog)

  // ----- The step as a program -----

  function Raising(h: Held, bit: bv8, k: Held -> Prog): Prog {
    GetFlags((flags: bv8) => PutFlags(flags | bit, k(h)))
  }

  function Refreshing(h: Held, k: Held -> Prog): Prog {
    Get(STAT, (stat: bv8) => Get(LYC, (lyc: bv8) => Refreshed(h, stat, lyc, k)))
  }

  function Refreshed(h: Held, stat: bv8, lyc: bv8, k: Held -> Prog): Prog {
    var equal := P.LineByte(h.unit.ly) == lyc;
    var h' := h.(unit := h.unit.(lycEqual := equal));
    Put(STAT, P.StatWith(stat, h.unit.mode, equal),
        if !h.unit.lycEqual && equal && stat & 0x40 != 0 then Raising(h', 0x02, k) else k(h'))
  }

  function SettingMode(h: Held, mode: bv8, k: Held -> Prog): Prog {
    if h.unit.mode == mode then k(h) else Get(STAT, (stat: bv8) => ModeSet(h, mode, stat, k))
  }

  function ModeSet(h: Held, mode: bv8, stat: bv8, k: Held -> Prog): Prog {
    var h' := h.(unit := h.unit.(mode := mode));
    Put(STAT, P.StatWith(stat, mode, h.unit.lycEqual), if P.Wants(stat, mode) then Raising(h', 0x02, k) else k(h'))
  }

  function BeginningLine(h: Held, k: Held -> Prog): Prog {
    if h.unit.ly == 0 then SettingMode(h.(unit := h.unit.(frameReady := true), frames := h.frames + 1), 2, k)
    else if h.unit.ly < P.VBLANK_START_LINE then SettingMode(h, 2, k)
    else if h.unit.ly == P.VBLANK_START_LINE then
      Raising(h.(vblanks := h.vblanks + 1), 0x01, (h1: Held) => SettingMode(h1, 1, k))
    else k(h)
  }

  function EnteringLine(h: Held, ly: nat, k: Held -> Prog): Prog {
    Put(LY, P.LineByte(ly), Refreshing(h.(unit := h.unit.(ly := ly)), (h1: Held) => BeginningLine(h1, k)))
  }

  function HandlingEvent(h: Held, k: Held -> Prog): Prog {
    if h.unit.mode == 2 then SettingMode(h, 3, k)
    else if h.unit.mode == 3 then SettingMode(h, 0, k)
    else if h.unit.mode == 0 || h.unit.mode == 1 then
      var next := (h.unit.ly + 1) % 0x100;
      var dot := if h.unit.dot >= P.DOTS_PER_LINE then h.unit.dot - P.DOTS_PER_LINE else 0;
      EnteringLine(h.(unit := h.unit.(dot := dot)), if next >= P.TOTAL_LINES then 0 else next, k)
    else k(h)
  }

  function TurningOff(h: Held): Prog {
    Put(LY, 0, Get(STAT, (stat: bv8) => Get(LYC, (lyc: bv8) =>
      Put(STAT, P.StatWith(stat, 0, lyc == 0), End(h.(unit := P.Unit(0, 0, 0, lyc == 0, false, false)))))))
  }

  /** The cycles to the next event; none in a mode that does not exist. */
  function Left(u: P.Unit): nat {
    if u.mode <= 3 && P.Boundary(u.mode) > u.dot then P.Boundary(u.mode) - u.dot else 0
  }

  /** The loop, at most `turns` times. */
  function Looping(h: Held, n: nat, turns: nat): Prog
    decreases turns, 1
  {
    if n == 0 || turns == 0 then End(h)
    else Get(LCDC, (lcdc: bv8) =>
      if lcdc & 0x80 == 0 then TurningOff(h)
      else Refreshing(h, (h1: Held) => Leaping(h1, n, turns)))
  }

  function Leaping(h: Held, n: nat, turns: nat): Prog
    requires turns > 0
    decreases turns, 0
  {
    var left := Left(h.unit);
    if left == 0 then HandlingEvent(h, (h1: Held) => Looping(h1, n, turns - 1))
    else
      var step := if left < n then left else n;
      var h' := h.(unit := h.unit.(dot := h.unit.dot + step));
      if step == left then HandlingEvent(h', (h1: Held) => Looping(h1, n - step, turns - 1))
      else Looping(h', n - step, turns - 1)
  }

  function Starting(h: Held, k: Held -> Prog): Prog {
    Put(LY, 0, SettingMode(h.(unit := P.Unit(0, 0, 0, false, false, true)), 2, k))
  }

  /** A step: every second turn of the loop at least spends a cycle. */
  function Stepping(h: Held, n: nat): Prog {
    if n == 0 then End(h)
    else Get(LCDC, (lcdc: bv8) =>
      if lcdc & 0x80 == 0 then TurningOff(h)
      else if h.unit.lcdWasOn then Looping(h, n, 2 * n + 1)
      else Starting(h, (h1: Held) => Looping(h1, n, 2 * n + 1)))
  }

  // ----- Running a program -----

  /** Up to `turns` calls of a program against the bus. */
  function Exec(m: Bus, prog: Prog, turns: nat): (Bus, Prog)
    decreases turns
  {
    if turns == 0 then (m, prog)
    else match prog
      case End(_) => (m, prog)
      case Get(reg, got) => Exec(m, got(ReadReg(m, reg)), turns - 1)
      case GetFlags(got) => Exec(m, got(m.io[IF]), turns - 1)
      case Put(reg, value, next) => Exec(WriteReg(m, reg, value), next, turns - 1)
      case PutFlags(value, next) => Exec(WriteIf(m, value), next, turns - 1)
  }

  /** After `calls` calls the one program has become the other. */
  ghost predicate Leads(m: Bus, prog: Prog, calls: nat, m': Bus, prog': Prog) {
    forall turns: nat :: turns >= calls ==> Exec(m, prog, turns) == Exec(m', prog', turns - calls)
  }

  lemma LeadsOn(m: Bus, a: Prog, i: nat, m1: Bus, b: Prog, j: nat, m2: Bus, c: Prog)
    requires Leads(m, a, i, m1, b) && Leads(m1, b, j, m2, c)
    ensures Leads(m, a, i + j, m2, c)
  {
    hide Exec;
    forall turns: nat | turns >= i + j
      ensures Exec(m, a, turns) == Exec(m2, c, turns - (i + j))
    {
      assert Exec(m, a, turns) == Exec(m1, b, turns - i);
      assert turns - i - j == turns - (i + j);
    }
  }

  /** The bus with the unit's registers as given: STAT, LY and the interrupt flags. */
  function With(m: Bus, io: P.Io): Bus {
    m.(io := m.io[STAT := io.stat][LY := io.ly][IF := io.flags])
  }

  function IoOf(m: Bus, h: Held): P.Io {
    P.Io(m.io[LCDC], m.io[STAT], m.io[LY], m.io[LYC], m.io[IF], h.frames, h.vblanks)
  }

  function System(m: Bus, h: Held): P.Sys {
    P.Sys(h.unit, IoOf(m, h))
  }

  function HeldOf(s: P.Sys): Held {
    Held(s.p, s.io.frames, s.io.vblanks)
  }

  /** The registers the unit only reads are those of the bus. */
  predicate Fits(m: Bus, s: P.Sys) {
    s.io.lcdc == m.io[LCDC] && s.io.lyc == m.io[LYC]
  }

  lemma SystemFits(m: Bus, h: Held)
    ensures var s := System(m, h); Fits(m, s) && With(m, s.io) == m && HeldOf(s) == h
  {
    var io := IoOf(m, h);
    assert m.io[STAT := io.stat][LY := io.ly][IF := io.flags] == m.io;
  }

  lemma WithAgain(m: Bus, s: P.Sys)
    requires Fits(m, s)
    ensures System(With(m, s.io), HeldOf(s)) == s
  {
  }

  lemma ReadsStat(m: Bus, io: P.Io, got: bv8 -> Prog)
    ensures Leads(With(m, io), Get(STAT, got), 1, With(m, io), got(io.stat))
  {
  }

  lemma ReadsLcdc(m: Bus, io: P.Io, got: bv8 -> Prog)
    ensures Leads(With(m, io), Get(LCDC, got), 1, With(m, io), got(m.io[LCDC]))
  {
  }

  lemma ReadsLyc(m: Bus, io: P.Io, got: bv8 -> Prog)
    ensures Leads(With(m, io), Get(LYC, got), 1, With(m, io), got(m.io[LYC]))
  {
  }

  lemma ReadsFlags(m: Bus, io: P.Io, got: bv8 -> Prog)
    ensures Leads(With(m, io), GetFlags(got), 1, With(m, io), got(io.flags))
  {
  }

  lemma PutsStat(m: Bus, io: P.Io, value: bv8, next: Prog)
    ensures Leads(With(m, io), Put(STAT, value, next), 1, With(m, io.(stat := value)), next)
  {
    var q := m.io[STAT := io.stat][LY := io.ly][IF := io.flags];
    assert q[STAT := value] == m.io[STAT := value][LY := io.ly][IF := io.flags];
    assert WriteReg(With(m, io), STAT, value) == With(m, io.(stat := value));
  }

  lemma PutsLy(m: Bus, io: P.Io, value: bv8, next: Prog)
    ensures Leads(With(m, io), Put(LY, value, next), 1, With(m, io.(ly := value)), next)
  {
    var q := m.io[STAT := io.stat][LY := io.ly][IF := io.flags];
    assert q[LY := value] == m.io[STAT := io.stat][LY := value][IF := io.flags];
    assert WriteReg(With(m, io), LY, value) == With(m, io.(ly := value));
  }

  lemma PutsFlags(m: Bus, io: P.Io, bit: bv8, next: Prog)
    ensures Leads(With(m, io), PutFlags(io.flags | bit, next), 1, With(m, P.Raise(io, bit)), next)
  {
    var flags := ((io.flags | bit) & 0x1F) | 0xE0;
    var q := m.io[STAT := io.stat][LY := io.ly][IF := io.flags];
    assert q[IF := flags] == m.io[STAT := io.stat][LY := io.ly][IF := flags];
    assert WriteIf(With(m, io), io.flags | bit) == With(m, P.Raise(io, bit));
  }

  // ----- Each part computes what the unit's step says -----

  /** From one system over the bus to another in `calls` calls, going on with `prog'`. */
  ghost predicate Goes(m: Bus, s: P.Sys, prog: Prog, calls: nat, s': P.Sys, prog': Prog) {
    Leads(With(m, s.io), prog, calls, With(m, s'.io), prog')
  }

  lemma GoesOn(m: Bus, s: P.Sys, a: Prog, i: nat, s1: P.Sys, b: Prog, j: nat, s2: P.Sys, c: Prog)
    requires Goes(m, s, a, i, s1, b) && Goes(m, s1, b, j, s2, c)
    ensures Goes(m, s, a, i + j, s2, c)
  {
    hide Leads;
    LeadsOn(With(m, s.io), a, i, With(m, s1.io), b, j, With(m, s2.io), c);
  }

  lemma GoesNowhere(m: Bus, s: P.Sys, a: Prog)
    ensures Goes(m, s, a, 0, s, a)
  {
    hide Exec;
  }

  lemma RaisingGoes(m: Bus, s: P.Sys, bit: bv8, k: Held -> Prog)
    ensures Goes(m, s, Raising(HeldOf(s), bit, k), 2, s.(io := P.Raise(s.io, bit)), k(HeldOf(s)))
    ensures HeldOf(s.(io := P.Raise(s.io, bit))) == HeldOf(s)
  {
    hide Leads, With;
    var io := s.io;
    var got := (flags: bv8) => PutFlags(flags | bit, k(HeldOf(s)));
    ReadsFlags(m, io, got);
    PutsFlags(m, io, bit, k(HeldOf(s)));
    LeadsOn(With(m, io), GetFlags(got), 1, With(m, io), got(io.flags), 1, With(m, P.Raise(io, bit)), k(HeldOf(s)));
  }

  /** A store of STAT and, where due, the interrupt. */
  lemma StoringGoes(m: Bus, s: P.Sys, stat: bv8, due: bool, k: Held -> Prog) returns (calls: nat)
    ensures var io := s.io.(stat := stat);
      && calls <= 3
      && Goes(m, s, Put(STAT, stat, if due then Raising(HeldOf(s), 0x02, k) else k(HeldOf(s))), calls,
              s.(io := if due then P.Raise(io, 0x02) else io), k(HeldOf(s)))
  {
    hide Leads, With, P.Raise, Raising;
    var s1 := s.(io := s.io.(stat := stat));
    var next := if due then Raising(HeldOf(s), 0x02, k) else k(HeldOf(s));
    PutsStat(m, s.io, stat, next);
    assert Goes(m, s, Put(STAT, stat, next), 1, s1, next);
    calls := 1;
    if due {
      RaisingGoes(m, s1, 0x02, k);
      GoesOn(m, s, Put(STAT, stat, next), 1, s1, next, 2, s1.(io := P.Raise(s1.io, 0x02)), k(HeldOf(s)));
      calls := 3;
    }
  }

  lemma RefreshGoes(m: Bus, s: P.Sys, k: Held -> Prog) returns (calls: nat)
    requires Fits(m, s)
    ensures calls <= 5 && Fits(m, P.Refresh(s))
    ensures Goes(m, s, Refreshing(HeldOf(s), k), calls, P.Refresh(s), k(HeldOf(P.Refresh(s))))
  {
    hide Leads, With, P.Raise, P.StatWith, P.LineByte, Raising, Goes;
    var h, stat, lyc := HeldOf(s), s.io.stat, s.io.lyc;
    var first := (stat: bv8) => Get(LYC, (lyc: bv8) => Refreshed(h, stat, lyc, k));
    var second := (lyc: bv8) => Refreshed(h, stat, lyc, k);
    P.RefreshKeeps(s);
    StatGoes(m, s, first);
    assert first(stat) == Get(LYC, second);
    LycGoes(m, s, second);
    GoesOn(m, s, Get(STAT, first), 1, s, Get(LYC, second), 1, s, second(lyc));
    var s1 := s.(p := s.p.(lycEqual := P.LineByte(s.p.ly) == lyc));
    var due := !s.p.lycEqual && s1.p.lycEqual && stat & 0x40 != 0;
    SameStore(m, s, s1, Refreshed(h, stat, lyc, k));
    var more := StoringGoes(m, s1, P.StatWith(stat, s.p.mode, s1.p.lycEqual), due, k);
    GoesOn(m, s, Get(STAT, first), 2, s, second(lyc), 0, s1, second(lyc));
    GoesOn(m, s, Get(STAT, first), 2, s1, second(lyc), more, P.Refresh(s), k(HeldOf(P.Refresh(s))));
    calls := 2 + more;
  }

  lemma StatGoes(m: Bus, s: P.Sys, got: bv8 -> Prog)
    ensures Goes(m, s, Get(STAT, got), 1, s, got(s.io.stat))
  {
    hide Leads;
    ReadsStat(m, s.io, got);
  }

  lemma LycGoes(m: Bus, s: P.Sys, got: bv8 -> Prog)
    requires Fits(m, s)
    ensures Goes(m, s, Get(LYC, got), 1, s, got(s.io.lyc))
  {
    hide Leads;
    ReadsLyc(m, s.io, got);
  }

  lemma LcdcGoes(m: Bus, s: P.Sys, got: bv8 -> Prog)
    requires Fits(m, s)
    ensures Goes(m, s, Get(LCDC, got), 1, s, got(s.io.lcdc))
  {
    hide Leads;
    ReadsLcdc(m, s.io, got);
  }

  lemma LyGoes(m: Bus, s: P.Sys, value: bv8, next: Prog)
    ensures Goes(m, s, Put(LY, value, next), 1, s.(io := s.io.(ly := value)), next)
  {
    hide Leads;
    PutsLy(m, s.io, value, next);
  }

  /** The unit's own fields are not on the bus. */
  lemma SameStore(m: Bus, s: P.Sys, s1: P.Sys, a: Prog)
    requires s1.io.stat == s.io.stat && s1.io.ly == s.io.ly && s1.io.flags == s.io.flags
    ensures Goes(m, s, a, 0, s1, a)
  {
    hide Exec;
  }

  lemma SetModeGoes(m: Bus, s: P.Sys, mode: bv8, k: Held -> Prog) returns (calls: nat)
    requires Fits(m, s)
    ensures calls <= 4 && Fits(m, P.SetMode(s, mode))
    ensures Goes(m, s, SettingMode(HeldOf(s), mode, k), calls, P.SetMode(s, mode), k(HeldOf(P.SetMode(s, mode))))
  {
    hide P.Raise, P.StatWith, P.Wants, Raising, Goes;
    P.SetModeKeeps(s, mode);
    if s.p.mode == mode {
      GoesNowhere(m, s, k(HeldOf(s)));
      calls := 0;
    } else {
      var h, stat := HeldOf(s), s.io.stat;
      var first := (stat: bv8) => ModeSet(h, mode, stat, k);
      StatGoes(m, s, first);
      var s1 := s.(p := s.p.(mode := mode));
      SameStore(m, s, s1, first(stat));
      GoesOn(m, s, Get(STAT, first), 1, s, first(stat), 0, s1, first(stat));
      var more := StoringGoes(m, s1, P.StatWith(stat, mode, s.p.lycEqual), P.Wants(stat, mode), k);
      GoesOn(m, s, Get(STAT, first), 1, s1, first(stat), more, P.SetMode(s, mode), k(HeldOf(P.SetMode(s, mode))));
      calls := 1 + more;
    }
  }

  lemma BeginLineGoes(m: Bus, s: P.Sys, k: Held -> Prog) returns (calls: nat)
    requires Fits(m, s)
    ensures calls <= 6 && Fits(m, P.BeginLine(s))
    ensures Goes(m, s, BeginningLine(HeldOf(s), k), calls, P.BeginLine(s), k(HeldOf(P.BeginLine(s))))
  {
    hide P.SetMode, SettingMode, Raising, Goes;
    var ly, prog := s.p.ly, BeginningLine(HeldOf(s), k);
    if ly == 0 {
      var s1 := P.Sys(s.p.(frameReady := true), s.io.(frames := s.io.frames + 1));
      SameStore(m, s, s1, prog);
      var more := SetModeGoes(m, s1, 2, k);
      GoesOn(m, s, prog, 0, s1, prog, more, P.BeginLine(s), k(HeldOf(P.BeginLine(s))));
      calls := more;
    } else if ly < P.VBLANK_START_LINE {
      calls := SetModeGoes(m, s, 2, k);
    } else if ly == P.VBLANK_START_LINE {
      var s1 := s.(io := s.io.(vblanks := s.io.vblanks + 1));
      var then_ := (h1: Held) => SettingMode(h1, 1, k);
      SameStore(m, s, s1, prog);
      RaisingGoes(m, s1, 0x01, then_);
      var s2 := s.(io := P.Raise(s.io, 0x01).(vblanks := s.io.vblanks + 1));
      GoesOn(m, s, prog, 0, s1, prog, 2, s2, then_(HeldOf(s2)));
      var more := SetModeGoes(m, s2, 1, k);
      GoesOn(m, s, prog, 2, s2, then_(HeldOf(s2)), more, P.BeginLine(s), k(HeldOf(P.BeginLine(s))));
      calls := 2 + more;
    } else {
      GoesNowhere(m, s, k(HeldOf(s)));
      calls := 0;
    }
  }

  lemma EnterLineGoes(m: Bus, s: P.Sys, ly: nat, k: Held -> Prog) returns (calls: nat)
    requires Fits(m, s)
    ensures calls <= 12 && Fits(m, P.EnterLine(s, ly))
    ensures Goes(m, s, EnteringLine(HeldOf(s), ly, k), calls, P.EnterLine(s, ly), k(HeldOf(P.EnterLine(s, ly))))
  {
    hide P.BeginLine, P.Refresh, P.LineByte, Refreshing, BeginningLine, Goes;
    var prog := EnteringLine(HeldOf(s), ly, k);
    var then_ := (h1: Held) => BeginningLine(h1, k);
    var s0 := P.Sys(s.p, s.io.(ly := P.LineByte(ly)));
    var s1 := P.Sys(s.p.(ly := ly), s.io.(ly := P.LineByte(ly)));
    var next := Refreshing(HeldOf(s1), then_);
    LyGoes(m, s, P.LineByte(ly), next);
    SameStore(m, s0, s1, next);
    GoesOn(m, s, prog, 1, s0, next, 0, s1, next);
    var i := RefreshGoes(m, s1, then_);
    var s2 := P.Refresh(s1);
    GoesOn(m, s, prog, 1, s1, next, i, s2, then_(HeldOf(s2)));
    var j := BeginLineGoes(m, s2, k);
    GoesOn(m, s, prog, 1 + i, s2, then_(HeldOf(s2)), j, P.EnterLine(s, ly), k(HeldOf(P.EnterLine(s, ly))));
    calls := 1 + i + j;
  }

  lemma EventGoes(m: Bus, s: P.Sys, k: Held -> Prog) returns (calls: nat)
    requires Fits(m, s)
    ensures calls <= 12 && Fits(m, P.HandleEvent(s))
    ensures Goes(m, s, HandlingEvent(HeldOf(s), k), calls, P.HandleEvent(s), k(HeldOf(P.HandleEvent(s))))
  {
    hide P.SetMode, P.EnterLine, SettingMode, EnteringLine, Goes;
    var prog := HandlingEvent(HeldOf(s), k);
    if s.p.mode == 2 {
      calls := SetModeGoes(m, s, 3, k);
    } else if s.p.mode == 3 {
      calls := SetModeGoes(m, s, 0, k);
    } else if s.p.mode == 0 || s.p.mode == 1 {
      var next := (s.p.ly + 1) % 0x100;
      var s1 := s.(p := s.p.(dot := if s.p.dot >= P.DOTS_PER_LINE then s.p.dot - P.DOTS_PER_LINE else 0));
      SameStore(m, s, s1, prog);
      var more := EnterLineGoes(m, s1, if next >= P.TOTAL_LINES then 0 else next, k);
      GoesOn(m, s, prog, 0, s1, prog, more, P.HandleEvent(s), k(HeldOf(P.HandleEvent(s))));
      calls := more;
    } else {
      GoesNowhere(m, s, k(HeldOf(s)));
      calls := 0;
    }
  }

  lemma OffGoes(m: Bus, s: P.Sys) returns (calls: nat)
    requires Fits(m, s)
    ensures calls <= 4 && Fits(m, P.ForceOff(s))
    ensures Goes(m, s, TurningOff(HeldOf(s)), calls, P.ForceOff(s), End(HeldOf(P.ForceOff(s))))
  {
    hide P.StatWith, Goes, Leads, With;
    var h, lyc := HeldOf(s), s.io.lyc;
    var s1 := s.(io := s.io.(ly := 0));
    var stat := s.io.stat;
    var first := (stat: bv8) => Get(LYC, (lyc: bv8) =>
      Put(STAT, P.StatWith(stat, 0, lyc == 0), End(h.(unit := P.Unit(0, 0, 0, lyc == 0, false, false)))));
    var second := (lyc: bv8) =>
      Put(STAT, P.StatWith(stat, 0, lyc == 0), End(h.(unit := P.Unit(0, 0, 0, lyc == 0, false, false))));
    assert first(stat) == Get(LYC, second);
    LyGoes(m, s, 0, Get(STAT, first));
    StatGoes(m, s1, first);
    LycGoes(m, s1, second);
    var off := P.ForceOff(s);
    var s2 := s1.(io := s1.io.(stat := P.StatWith(stat, 0, lyc == 0)));
    LastStore(m, s1, s2, P.StatWith(stat, 0, lyc == 0), End(HeldOf(off)));
    SameStore(m, s2, off, End(HeldOf(off)));
    GoesOn(m, s, TurningOff(h), 1, s1, Get(STAT, first), 1, s1, Get(LYC, second));
    GoesOn(m, s, TurningOff(h), 2, s1, Get(LYC, second), 1, s1, second(lyc));
    GoesOn(m, s, TurningOff(h), 3, s1, second(lyc), 1, s2, End(HeldOf(off)));
    GoesOn(m, s, TurningOff(h), 4, s2, End(HeldOf(off)), 0, off, End(HeldOf(off)));
    calls := 4;
  }

  lemma LastStore(m: Bus, s: P.Sys, s': P.Sys, stat: bv8, next: Prog)
    requires s' == s.(io := s.io.(stat := stat))
    ensures Goes(m, s, Put(STAT, stat, next), 1, s', next)
  {
    hide Leads;
    PutsStat(m, s.io, stat, next);
  }

  /** One turn of the loop after its look at LCDC. */
  lemma LeapGoes(m: Bus, s: P.Sys, n: nat, turns: nat) returns (calls: nat)
    requires Fits(m, s) && P.Sane(s.p) && n > 0 && turns > 0
    ensures calls <= 17
    ensures var (s', n') := P.Leap(s, n);
      && Fits(m, s')
      && Goes(m, s, Refreshing(HeldOf(s), (h1: Held) => Leaping(h1, n, turns)), calls,
              s', Looping(HeldOf(s'), n', turns - 1))
  {
    hide P.HandleEvent, P.Refresh, Refreshing, HandlingEvent, Looping, Goes;
    var then_ := (h1: Held) => Leaping(h1, n, turns);
    var prog := Refreshing(HeldOf(s), then_);
    var i := RefreshGoes(m, s, then_);
    P.RefreshKeeps(s);
    var s1 := P.Refresh(s);
    var left := P.UntilNext(s1.p);
    LeftIs(s1.p);
    var s', n' := P.Leap(s, n).0, P.Leap(s, n).1;
    if left == 0 {
      var j := EventGoes(m, s1, (h1: Held) => Looping(h1, n, turns - 1));
      GoesOn(m, s, prog, i, s1, then_(HeldOf(s1)), j, s', Looping(HeldOf(s'), n', turns - 1));
      calls := i + j;
    } else {
      var step := if left < n then left else n;
      var s2 := s1.(p := s1.p.(dot := s1.p.dot + step));
      SameStore(m, s1, s2, then_(HeldOf(s1)));
      GoesOn(m, s, prog, i, s1, then_(HeldOf(s1)), 0, s2, then_(HeldOf(s1)));
      if step == left {
        var j := EventGoes(m, s2, (h1: Held) => Looping(h1, n - step, turns - 1));
        GoesOn(m, s, prog, i, s2, then_(HeldOf(s1)), j, s', Looping(HeldOf(s'), n', turns - 1));
        calls := i + j;
      } else {
        calls := i;
      }
    }
  }

  lemma LeftIs(u: P.Unit)
    requires P.Sane(u)
    ensures Left(u) == P.UntilNext(u)
  {
  }

  /** Turns the loop can still take. */
  function Turns(u: P.Unit, n: nat): nat
    requires P.Sane(u)
  {
    2 * n + if P.UntilNext(u) == 0 then 1 else 0
  }

  lemma {:induction false} LoopGoes(m: Bus, s: P.Sys, n: nat, turns: nat) returns (calls: nat)
    requires Fits(m, s) && P.Sane(s.p) && Turns(s.p, n) <= turns
    ensures calls <= 18 * turns && Fits(m, P.Run(s, n))
    ensures Goes(m, s, Looping(HeldOf(s), n, turns), calls, P.Run(s, n), End(HeldOf(P.Run(s, n))))
    decreases turns
  {
    hide P.Leap, P.ForceOff, P.Sane, P.UntilNext, Leaping, TurningOff, Refreshing, Goes;
    var prog := Looping(HeldOf(s), n, turns);
    if n == 0 {
      GoesNowhere(m, s, prog);
      calls := 0;
    } else {
      var first := (lcdc: bv8) =>
        if lcdc & 0x80 == 0 then TurningOff(HeldOf(s))
        else Refreshing(HeldOf(s), (h1: Held) => Leaping(h1, n, turns));
      LcdcGoes(m, s, first);
      if P.LcdOn(s.io) {
        var i := LeapGoes(m, s, n, turns);
        var (s', n') := P.Leap(s, n);
        GoesOn(m, s, prog, 1, s, first(s.io.lcdc), i, s', Looping(HeldOf(s'), n', turns - 1));
        var j := LoopGoes(m, s', n', turns - 1);
        GoesOn(m, s, prog, 1 + i, s', Looping(HeldOf(s'), n', turns - 1), j, P.Run(s, n), End(HeldOf(P.Run(s, n))));
        calls := 1 + i + j;
      } else {
        var i := OffGoes(m, s);
        GoesOn(m, s, prog, 1, s, first(s.io.lcdc), i, P.ForceOff(s), End(HeldOf(P.ForceOff(s))));
        calls := 1 + i;
      }
    }
  }

  lemma StartGoes(m: Bus, s: P.Sys, k: Held -> Prog) returns (calls: nat)
    requires Fits(m, s)
    ensures calls <= 5 && Fits(m, P.StartLcd(s))
    ensures Goes(m, s, Starting(HeldOf(s), k), calls, P.StartLcd(s), k(HeldOf(P.StartLcd(s))))
  {
    hide P.SetMode, SettingMode, Goes;
    var prog := Starting(HeldOf(s), k);
    var s0 := s.(io := s.io.(ly := 0));
    var s1 := P.Sys(P.Unit(0, 0, 0, false, false, true), s.io.(ly := 0));
    var next := SettingMode(HeldOf(s1), 2, k);
    LyGoes(m, s, 0, next);
    SameStore(m, s0, s1, next);
    GoesOn(m, s, prog, 1, s0, next, 0, s1, next);
    var i := SetModeGoes(m, s1, 2, k);
    GoesOn(m, s, prog, 1, s1, next, i, P.StartLcd(s), k(HeldOf(P.StartLcd(s))));
    calls := 1 + i;
  }

  /** The program of a step computes the unit's step, in a bounded number of calls. */
  lemma StepGoes(m: Bus, s: P.Sys, n: nat) returns (calls: nat)
    requires Fits(m, s) && P.Sane(s.p)
    ensures calls <= 24 + 36 * n && Fits(m, P.Step(s, n))
    ensures Goes(m, s, Stepping(HeldOf(s), n), calls, P.Step(s, n), End(HeldOf(P.Step(s, n))))
  {
    hide P.Run, P.ForceOff, P.Sane, P.StartLcd, P.UntilNext, TurningOff, Starting, Looping, Goes;
    var prog := Stepping(HeldOf(s), n);
    if n == 0 {
      GoesNowhere(m, s, prog);
      calls := 0;
    } else {
      var loop := (h1: Held) => Looping(h1, n, 2 * n + 1);
      var first := (lcdc: bv8) =>
        if lcdc & 0x80 == 0 then TurningOff(HeldOf(s))
        else if s.p.lcdWasOn then Looping(HeldOf(s), n, 2 * n + 1)
        else Starting(HeldOf(s), loop);
      LcdcGoes(m, s, first);
      P.StartKeeps(s);
      if !P.LcdOn(s.io) {
        var i := OffGoes(m, s);
        GoesOn(m, s, prog, 1, s, first(s.io.lcdc), i, P.Step(s, n), End(HeldOf(P.Step(s, n))));
        calls := 1 + i;
      } else if s.p.lcdWasOn {
        var i := LoopGoes(m, s, n, 2 * n + 1);
        GoesOn(m, s, prog, 1, s, first(s.io.lcdc), i, P.Step(s, n), End(HeldOf(P.Step(s, n))));
        calls := 1 + i;
      } else {
        var i := StartGoes(m, s, loop);
        var s1 := P.StartLcd(s);
        GoesOn(m, s, prog, 1, s, first(s.io.lcdc), i, s1, loop(HeldOf(s1)));
        var j := LoopGoes(m, s1, n, 2 * n + 1);
        GoesOn(m, s, prog, 1 + i, s1, loop(HeldOf(s1)), j, P.Step(s, n), End(HeldOf(P.Step(s, n))));
        calls := 1 + i + j;
      }
    }
  }

  // ----- The client -----

  /** The unit as a client: switched off in the core, it makes no calls. */
  datatype Client = Client(enabled: bool, last: Held, prog: Prog)

  function Now(c: Client): Held {
    if c.prog.End? then c.prog.held else c.last
  }

  function Ask(prog: Prog): Option<Call> {
    match prog
    case End(_) => None
    case Get(reg, _) => Some(GetReg(reg))
    case GetFlags(_) => Some(GetIf)
    case Put(reg, value, _) => Some(PutReg(reg, value))
    case PutFlags(value, _) => Some(PutIf(value))
  }

  function Tell(prog: Prog, answer: Answer): Prog {
    match prog
    case End(_) => prog
    case Get(_, got) => got(ByteOf(answer))
    case GetFlags(got) => got(ByteOf(answer))
    case Put(_, _, next) => next
    case PutFlags(_, next) => next
  }

  function Begin(c: Client, n: nat): Client {
    Client(c.enabled, Now(c), if c.enabled then Stepping(Now(c), n) else End(Now(c)))
  }

  function Pictures(turns: nat): Device<Client> {
    Device((c: Client, n: nat) => Begin(c, n), (c: Client) => Ask(c.prog),
           (c: Client, answer: Answer) => c.(prog := Tell(c.prog, answer)), turns,
           (c: Client) => Now(c).unit.frameReady)
  }

  /** The device makes the calls of its program. */
  lemma {:induction false} TurnRuns(m: Bus, c: Client, turns: nat, limit: nat)
    ensures var (m', prog) := Exec(m, c.prog, turns);
      Turn(ScalarBackend(), Pictures(limit), m, c, turns) == (m', c.(prog := prog))
    decreases turns
  {
    if turns > 0 && !c.prog.End? {
      var (m', answer) := Serve(m, Ask(c.prog).value);
      CallRuns(m, c.prog, turns);
      TurnRuns(m', c.(prog := Tell(c.prog, answer)), turns - 1, limit);
      TurnOnce(m, c, turns, limit);
    }
  }

  lemma CallRuns(m: Bus, prog: Prog, turns: nat)
    requires turns > 0 && Ask(prog).Some?
    ensures var (m', answer) := Serve(m, Ask(prog).value);
      Exec(m, prog, turns) == Exec(m', Tell(prog, answer), turns - 1)
  {
    hide ReadReg, WriteReg, WriteIf;
  }

  lemma TurnOnce(m: Bus, c: Client, turns: nat, limit: nat)
    requires turns > 0 && Ask(c.prog).Some?
    ensures var (m', answer) := Serve(m, Ask(c.prog).value);
      Turn(ScalarBackend(), Pictures(limit), m, c, turns)
      == Turn(ScalarBackend(), Pictures(limit), m', c.(prog := Tell(c.prog, answer)), turns - 1)
  {
    hide Ask, Tell, Serve;
  }

  /** Where a span takes the unit: nowhere if the core has it switched off. */
  function Moved(c: Client, s: P.Sys, n: nat): P.Sys
    requires P.Sane(s.p)
  {
    if c.enabled then P.Step(s, n) else s
  }

  /** A step made call by call on the bus is the unit's step on the bus's registers: with room for its
      calls it ends, STAT, LY and the interrupt flags are those the step gives, and nothing else on the
      bus has changed. */
  lemma StepByCalls(c: Client, m: Bus, n: nat, turns: nat)
    requires P.Sane(Now(c).unit) && 24 + 36 * n <= turns
    ensures var (m', c') := Turn(ScalarBackend(), Pictures(turns), m, Begin(c, n), turns);
      var s' := Moved(c, System(m, Now(c)), n);
      && c' == Client(c.enabled, Now(c), End(HeldOf(s')))
      && m' == With(m, s'.io) && System(m', HeldOf(s')) == s' && P.Sane(s'.p)
  {
    hide P.Step, P.Sane, Stepping, With, Exec, Turn, IoOf;
    var s := System(m, Now(c));
    SystemFits(m, Now(c));
    TurnRuns(m, Begin(c, n), turns, turns);
    if c.enabled {
      var calls := StepGoes(m, s, n);
      var s' := P.Step(s, n);
      EndStays(With(m, s'.io), HeldOf(s'), turns - calls);
      WithAgain(m, s');
    } else {
      EndStays(m, Now(c), turns);
    }
  }

  lemma EndStays(m: Bus, h: Held, turns: nat)
    ensures Exec(m, End(h), turns) == (m, End(h))
  {
  }
}
