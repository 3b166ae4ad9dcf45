/**
 Where a timer step may be split: exactly after a multiple of four cycles.
 */
module TimerSplits {
  import opened RingLayout
  import opened Timers
  import TimerForm

  /** How far the divider, which starts at 8, has to be moved so that 16 divides it `q` cycles on. */
  function Lead(q: nat): nat {
    (24 - q % 16) % 16
  }

  /** The register of a divider moved on from power-on. */
  function Shown(k: nat): bv8 {
    if k == 0 then 0 else HighByte(8 + k)
  }

  /** A history after which a reload wait of four cycles starts exactly `q` cycles from now: the divider
      is brought to the right place, and then TMA, TIMA and TAC are set so that its next tick overflows. */
  function Preparation(q: nat): seq<Event> {
    [Passes(Lead(q)), Tma(0xFF), Tima(0xFF), Tac(0x05), Passes(0)]
  }

  /** The same, the wait starting now if `q` is zero. */
  function History(q: nat): seq<Event> {
    if q == 0 then Preparation(4) + [Passes(4)] else Preparation(q)
  }

  /** What the preparation arrives at. */
  function Prepared(k: nat): Sys {
    Sys(Timer(8 + k, Signal(8 + k, 0x05), Running, 0xFF, 0),
        Regs(Shown(k), 0xFF, 0xFF, 0x05, 0xE0, false, None, None, None, 0, 0))
  }

  predicate Waits(s: Sys) {
    && s.t.state == OverflowPending && s.t.delay == 4 && s.io.tima == 0
    && s.t.div % 16 == 0 && s.t.div < DIV_LIMIT && s.io.tac == 0x05
  }

  /** An ordinary moment: nothing latched, the input up to date, and TIMA at zero while a reload waits. */
  predicate Ordinary(s: Sys) {
    && Settled(s) && NoneLatched(s.io) && TimerForm.Waiting(s)
    && (s.t.state == OverflowPending ==> s.io.tima == 0)
  }

  lemma ReachedThen(history: seq<Event>, e: Event)
    ensures Reached(history + [e]) == Happen(Reached(history), e)
  {
    hide Happen;
    assert (history + [e])[..|history|] == history;
  }

  /** While TAC is off only the divider moves. */
  lemma IdleDivider(k: nat)
    requires k % 4 == 0 && k < 16
    ensures Step(PowerOnSystem(), k) == Sys(Timer(8 + k, false, Running, 0, 0), PowerOnSystem().io.(div := Shown(k)))
  {
    hide Cycles, ProcessWrites, HighByte, SetFlags;
    var s := PowerOnSystem();
    NothingToTake(s);
    TimerForm.RunningForm(s, k);
    assert TimerForm.Count(s, k) == 0;
    assert !Enabled(s.io.tac);
  }

  lemma TakePreparation(k: nat)
    ensures var io := PowerOnSystem().io.(div := Shown(k));
      ProcessWrites(Sys(Timer(8 + k, false, Running, 0, 0),
                        WriteTac(WriteTima(WriteTma(io, 0xFF), 0xFF), 0x05))) == Prepared(k)
  {
    hide Bit, Shown;
  }

  lemma Arrives(q: nat)
    requires q % 4 == 0
    ensures Reached(Preparation(q)) == Prepared(Lead(q))
  {
    hide Step, Prepared, Reached, Shown;
    var k := Lead(q);
    var e0: seq<Event> := [];
    ReachedStart();
    ReachedThen(e0, Passes(k));
    ReachedThen(e0 + [Passes(k)], Tma(0xFF));
    ReachedThen(e0 + [Passes(k)] + [Tma(0xFF)], Tima(0xFF));
    ReachedThen(e0 + [Passes(k)] + [Tma(0xFF)] + [Tima(0xFF)], Tac(0x05));
    ReachedThen(e0 + [Passes(k)] + [Tma(0xFF)] + [Tima(0xFF)] + [Tac(0x05)], Passes(0));
    assert Preparation(q) == e0 + [Passes(k)] + [Tma(0xFF)] + [Tima(0xFF)] + [Tac(0x05)] + [Passes(0)];
    IdleDivider(k);
    TakePreparation(k);
    StepNothing(Reached(e0 + [Passes(k)] + [Tma(0xFF)] + [Tima(0xFF)] + [Tac(0x05)]));
  }

  lemma ReachedStart()
    ensures Reached([]) == PowerOnSystem()
  {
  }

  lemma StepNothing(s: Sys)
    ensures Step(s, 0) == ProcessWrites(s)
  {
    hide ProcessWrites;
  }

  /** With TIMA and TMA at 0xFF the next tick overflows, and it comes after `q` cycles. */
  lemma ThenWaits(q: nat)
    requires q > 0 && q % 4 == 0
    ensures Ordinary(Prepared(Lead(q))) && Waits(Cycles(Prepared(Lead(q)), q))
  {
    hide Cycles, Shown, Lead;
    var s := Prepared(Lead(q));
    WaitTicks(s.t.div, q);
    TimerForm.RunningForm(s, q);
    assert TimerForm.JustOverflowed(s, q);
  }

  lemma LeadIs(q: nat)
    ensures exists k: nat :: 8 + Lead(q) + q == 16 * k
    ensures Lead(q) < 16
  {
    var r := q % 16;
    assert q == q / 16 * 16 + r;
    if r <= 8 { assert Lead(q) == 8 - r; } else { assert Lead(q) == 24 - r; }
    var k := q / 16 + if r <= 8 then 1 else 2;
    assert 8 + Lead(q) + q == 16 * k;
  }

  lemma WaitTicks(div: nat, q: nat)
    requires q >= 4 && div == 8 + Lead(q)
    ensures div < 24 && (div + q) % 16 == 0 && (div + q) % DIV_LIMIT % 16 == 0
    ensures TimerForm.Ticks(div, 16, q) == TimerForm.Ticks(div, 16, q - 4) + 1
    ensures TimerForm.Ticks(div, 16, q - 4) >= 0
  {
    hide Lead;
    LeadIs(q);
    var k: nat :| div + q == 16 * k;
    TimerForm.Monotone(div, 16, q - 4);
    WrapsEvenly(k);
  }

  lemma WrapsEvenly(k: nat)
    ensures 16 * k % DIV_LIMIT % 16 == 0
  {
  }

  /** The history leads to an ordinary state from which the wait starts `q` cycles on. */
  lemma HistoryWaits(q: nat)
    requires q % 4 == 0
    ensures var s := Reached(History(q)); Ordinary(s) && Waits(Cycles(s, q))
  {
    hide Reached, Cycles, Preparation, Prepared, Ordinary, Waits, Step, Lead;
    if q == 0 {
      Arrives(4);
      ThenWaits(4);
      var s := Reached(Preparation(4));
      ReachedThen(Preparation(4), Passes(4));
      OrdinaryLatches(s);
      StepSettled(s, 4);
      CyclesFollowSignal(s, 4);
      CyclesUnfold(Step(s, 4), 0);
      WaitIsOrdinary(Step(s, 4));
    } else {
      Arrives(q);
      ThenWaits(q);
    }
  }

  lemma OrdinaryLatches(s: Sys)
    requires Ordinary(s)
    ensures NoneLatched(s.io) && Settled(s)
  {
  }

  lemma WaitIsOrdinary(s: Sys)
    requires Waits(s) && Settled(s) && NoneLatched(s.io)
    ensures Ordinary(s)
  {
  }

  /** In the lower half of the period a chunk cannot tick. */
  lemma QuietChunk(s: Sys, n: nat)
    requires 0 < n <= 4 && s.io.tac == 0x05 && s.t.div % 16 < 8 && s.t.div < DIV_LIMIT
    ensures var s' := Chunk(s, n);
      && s'.io.tac == 0x05 && s'.t.div == (s.t.div + n) % DIV_LIMIT
      && (s.t.state == Reloading ==> s'.t.state == Running)
      && (s.t.state == OverflowPending && s.t.delay <= n ==> s'.t.state == Reloading)
      && (s.t.state == OverflowPending && s.t.delay > n ==>
            s'.t.state == OverflowPending && s'.t.delay == s.t.delay - n)
  {
    hide SetFlags, HighByte;
    ReadTacSignal(0, s.io);
    assert !Bit(s.t.div, 16);
  }

  lemma NearWrap(div: nat, r: nat)
    requires div % 16 == 0 && div < DIV_LIMIT && r < 4
    ensures (div + r) % DIV_LIMIT % 16 == r && (div + 4) % DIV_LIMIT % 16 == 4
  {
  }

  lemma SplitEarly(s: Sys, r: nat)
    requires Waits(s) && 0 < r < 4
    ensures Chunk(Chunk(s, r), 4).t.state == Reloading
    ensures Chunk(Chunk(s, 4), r).t.state == Running
  {
    hide Chunk;
    NearWrap(s.t.div, r);
    QuietChunk(s, r);
    QuietChunk(Chunk(s, r), 4);
    QuietChunk(s, 4);
    QuietChunk(Chunk(s, 4), r);
  }

  lemma CyclesOfShort(s: Sys, n: nat)
    requires 0 < n < 4
    ensures Cycles(s, n) == Chunk(s, n)
  {
    hide Chunk;
  }

  lemma CyclesOfFour(s: Sys)
    ensures Cycles(s, 4) == Chunk(s, 4)
  {
    hide Chunk;
    CyclesUnfold(s, 4);
    CyclesUnfold(Chunk(s, 4), 0);
  }

  lemma StepSettled(s: Sys, n: nat)
    requires NoneLatched(s.io)
    ensures Step(s, n) == Cycles(s, n) && NoneLatched(Step(s, n).io)
  {
    hide NoneLatched, Cycles, ProcessWrites;
    NothingToTake(s);
    CyclesKeepLatches(s, n);
  }

  /** After any number of cycles that is not a multiple of four, a split shows, after a history that
      ends in an ordinary state: the reload wait is counted in the chunks the calls happen to make. */
  lemma SplitShows(a: nat)
    requires a % 4 != 0
    ensures exists history: seq<Event> ::
      var s := Reached(history); Ordinary(s) && Step(Step(s, a), 4) != Step(s, a + 4)
  {
    hide Cycles, Chunk, NoneLatched, Step, Ordinary, Waits, Reached, History;
    var r: nat := a % 4;
    var q: nat := a - r;
    var s := Reached(History(q));
    HistoryWaits(q);
    OrdinaryLatches(s);
    var p := Cycles(s, q);
    CyclesAdd(s, q, r);
    CyclesOfShort(p, r);
    CyclesOfFour(Chunk(p, r));
    CyclesAdd(s, q, 4 + r);
    CyclesAdd(p, 4, r);
    CyclesOfFour(p);
    CyclesOfShort(Chunk(p, 4), r);
    StepSettled(s, a);
    StepSettled(Step(s, a), 4);
    StepSettled(s, a + 4);
    SplitEarly(p, r);
    assert Step(Step(s, a), 4).t.state != Step(s, a + 4).t.state;
  }

  /** A step may be split after `a` cycles, after any history since power-on and whatever follows,
      exactly when `a` is a multiple of four; and then from any state at all. */
  lemma SplitsAtFours(a: nat)
    ensures (forall history: seq<Event>, b: nat ::
               Step(Step(Reached(history), a), b) == Step(Reached(history), a + b)) <==> a % 4 == 0
    ensures (forall s: Sys, b: nat :: Step(Step(s, a), b) == Step(s, a + b)) <==> a % 4 == 0
  {
    hide Step, Reached;
    if a % 4 == 0 {
      forall s: Sys, b: nat
        ensures Step(Step(s, a), b) == Step(s, a + b)
      {
        StepAdds(s, a, b);
      }
    } else {
      SplitShows(a);
    }
  }
}
