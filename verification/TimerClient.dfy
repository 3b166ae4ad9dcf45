/**
 The timer step as a client of the bus: a program that makes one register call at a time. Run against
 the bus, scalar or one lane of many, it computes the timer's step function on the bus's registers.
 */
module TimerClient {
  import opened RingLayout
  import opened MemoryBus
  import opened Core
  import opened Lanes
  import opened Lockstep
  import opened TimerRegisters
  import T = Timers

  /** What remains to do after an increment of TIMA. */
  datatype Then = ToReset(input: bool) | ToTac(tac: bv8) | ToChunk(tac: bv8)

  /** Where the step is between two calls. */
  datatype Place =
    | Reset | ZeroDiv | ResetTac
    | Bump(then_: Then) | Roll(then_: Then) | Schedule(then_: Then) | Raise(value: bv8, then_: Then)
    | TakeTima | StoreTima(value: bv8) | TakeTma | StoreTma(value: bv8) | TakeTac
    | Reload(step: nat) | ReloadIf(step: nat) | RaiseIf(step: nat, value: bv8)
    | Divide(step: nat) | DivideTac(before: nat)
    | Idle

  /** The timer's fields, the cycles left, and the counts that nothing reads. */
  datatype Client = Client(
    div: nat, input: bool, state: T.TimaState, pending: bv8, delay: nat,
    left: nat, at: Place, ticks: nat, reloads: nat)

  // ----- The client -----

  /** The chunk loop between calls: the next chunk's overflow state, or the end. */
  function NextChunk(c: Client): Client {
    if c.left == 0 then c.(at := Idle)
    else
      var step := if c.left < 4 then c.left else 4;
      match c.state
      case Running => c.(at := Divide(step))
      case OverflowPending =>
        var delay := if c.delay > step then c.delay - step else 0;
        if delay > 0 then c.(delay := delay, at := Divide(step)) else c.(delay := 0, at := Reload(step))
      case Reloading => c.(state := T.Running, at := Divide(step))
  }

  function Resume(c: Client, then_: Then): Client {
    match then_
    case ToReset(input) => c.(input := input, at := Reset)
    case ToTac(tac) => c.(input := T.Signal(c.div, tac), at := TakeTac)
    case ToChunk(tac) => NextChunk(c.(input := T.Signal(c.div, tac)))
  }

  function Begin(c: Client, n: nat): Client {
    c.(left := n, at := Reset)
  }

  function Wrapped(div: nat): nat {
    div % T.DIV_LIMIT
  }

  function Ask(c: Client): Option<Call> {
    match c.at
    case Reset => Some(TakeDivReset)
    case ZeroDiv => Some(PutDiv(0))
    case ResetTac => Some(GetTac)
    case Bump(_) => Some(GetTima)
    case Roll(_) => Some(PutTima(0))
    case Schedule(_) => Some(GetTma)
    case Raise(value, _) => Some(PutTima(value))
    case TakeTima => Some(TakeTimaWrite)
    case StoreTima(value) => Some(PutTima(value))
    case TakeTma => Some(TakeTmaWrite)
    case StoreTma(value) => Some(PutTima(value))
    case TakeTac => Some(TakeTacWrite)
    case Reload(_) => Some(PutTima(c.pending))
    case ReloadIf(_) => Some(GetIf)
    case RaiseIf(_, value) => Some(PutIf(value))
    case Divide(step) => Some(PutDiv(T.HighByte(Wrapped(c.div + step))))
    case DivideTac(_) => Some(GetTac)
    case Idle => None
  }

  function Tell(c: Client, answer: Answer): Client {
    match c.at
    case Reset =>
      if answer == Flag(true) then c.(div := 0, at := ZeroDiv) else c.(at := TakeTima)
    case ZeroDiv => c.(at := ResetTac)
    case ResetTac =>
      var input := T.Signal(c.div, ByteOf(answer));
      if c.input && !input then c.(at := Bump(ToReset(input))) else c.(input := input, at := Reset)
    case Bump(then_) =>
      var value := ByteOf(answer);
      var c1 := c.(ticks := c.ticks + 1);
      if value == 0xFF then c1.(at := Roll(then_)) else c1.(at := Raise(value + 1, then_))
    case Roll(then_) => c.(at := Schedule(then_))
    case Schedule(then_) =>
      Resume(c.(pending := ByteOf(answer), delay := 4, state := T.OverflowPending), then_)
    case Raise(_, then_) => Resume(c, then_)
    case TakeTima => TellTima(c, answer)
    case StoreTima(_) => c.(at := TakeTma)
    case TakeTma =>
      if answer.MaybeByte? && answer.byte.Some? then
        var c1 := c.(pending := answer.byte.value);
        if c.state == T.Reloading then c1.(at := StoreTma(answer.byte.value)) else c1
      else c.(at := TakeTac)
    case StoreTma(_) => c.(at := TakeTma)
    case TakeTac => TellTac(c, answer)
    case Reload(step) => c.(at := ReloadIf(step))
    case ReloadIf(step) => c.(at := RaiseIf(step, ByteOf(answer) | 0x04))
    case RaiseIf(step, _) => c.(state := T.Reloading, reloads := c.reloads + 1, at := Divide(step))
    case Divide(step) =>
      var new_ := Wrapped(c.div + step);
      c.(div := new_, at := DivideTac(c.div),
         left := if c.left >= step then c.left - step else 0)
    case DivideTac(before) =>
      var tac := ByteOf(answer);
      var falls := T.Enabled(tac) && T.Bit(before, T.Period(tac)) && !T.Bit(c.div, T.Period(tac));
      if falls then c.(at := Bump(ToChunk(tac))) else Resume(c, ToChunk(tac))
    case Idle => c
  }

  function TellTima(c: Client, answer: Answer): Client {
    if !answer.MaybeByte? || answer.byte.None? then c.(at := TakeTma)
    else
      match c.state
      case Running => c.(at := StoreTima(answer.byte.value))
      case OverflowPending => c.(state := T.Running, delay := 0, at := StoreTima(answer.byte.value))
      case Reloading => c.(at := StoreTima(c.pending))
  }

  function TellTac(c: Client, answer: Answer): Client {
    if !answer.MaybePair? || answer.pair.None? then NextChunk(c)
    else
      var (old_, new_) := answer.pair.value;
      var falls := T.Enabled(old_) && T.Bit(c.div, T.Period(old_))
                   && (!T.Enabled(new_) || !T.Bit(c.div, T.Period(new_)));
      if falls then c.(at := Bump(ToTac(new_))) else Resume(c, ToTac(new_))
  }

  /** Timers alone, as peripherals of a core whose picture unit is switched off. */
  function TimerDevice(turns: nat): Device<Client> {
    Device((c: Client, n: nat) => Begin(c, n), (c: Client) => Ask(c), (c: Client, a: Answer) => Tell(c, a), turns,
           (c: Client) => false)
  }

  // ----- What a place still owes -----

  function Fields(c: Client): T.Timer {
    T.Timer(c.div, c.input, c.state, Int(c.pending), c.delay)
  }

  /** The timer and its registers, which are the bus's cells. */
  function System(c: Client, m: Bus): T.Sys {
    T.Sys(Fields(c), RegsOf(m, c.ticks, c.reloads))
  }

  function FromTac(s: T.Sys, left: nat): T.Sys {
    T.Cycles(T.TakeTacWrite(s), left)
  }

  function FromTma(s: T.Sys, left: nat): T.Sys {
    FromTac(T.TakeTmaWrite(s), left)
  }

  function FromTima(s: T.Sys, left: nat): T.Sys {
    FromTma(T.TakeTimaWrite(s), left)
  }

  function FromReset(s: T.Sys, left: nat): T.Sys {
    FromTima(T.TakeDivReset(s), left)
  }

  function WithInput(s: T.Sys, input: bool): T.Sys {
    s.(t := s.t.(input := input))
  }

  /** The end of a divider reset. */
  function ResetEnd(s: T.Sys): T.Sys {
    var input := T.Signal(s.t.div, T.ReadTac(s.io));
    WithInput(if s.t.input && !input then T.Increment(s) else s, input)
  }

  /** The end of a divider chunk that began at `before`. */
  function ChunkEnd(s: T.Sys, before: nat): T.Sys {
    var tac := T.ReadTac(s.io);
    var falls := T.Enabled(tac) && T.Bit(before, T.Period(tac)) && !T.Bit(s.t.div, T.Period(tac));
    var s1 := if falls then T.Increment(s) else s;
    WithInput(s1, T.Signal(s1.t.div, tac))
  }

  function RolledOver(s: T.Sys): T.Sys {
    T.Sys(s.t.(pending := s.io.tma, delay := 4, state := T.OverflowPending), s.io.(tima := 0))
  }

  function Finish(s: T.Sys, left: nat, then_: Then): T.Sys {
    match then_
    case ToReset(input) => FromReset(WithInput(s, input), left)
    case ToTac(tac) => FromTac(WithInput(s, T.Signal(s.t.div, tac)), left)
    case ToChunk(tac) => T.Cycles(WithInput(s, T.Signal(s.t.div, tac)), left)
  }

  function Chunked(s: T.Sys, step: nat, left: nat): T.Sys {
    T.Cycles(T.ApplyDiv(s, step), if left >= step then left - step else 0)
  }

  /** Where the step will have arrived, from wherever it is. */
  function Rest(c: Client, m: Bus): T.Sys {
    var s := System(c, m);
    match c.at
    case Reset => FromReset(s, c.left)
    case ZeroDiv => FromReset(ResetEnd(s.(io := s.io.(div := 0))), c.left)
    case ResetTac => FromReset(ResetEnd(s), c.left)
    case Bump(then_) => Finish(T.Increment(s), c.left, then_)
    case Roll(then_) => Finish(RolledOver(s), c.left, then_)
    case Schedule(then_) => Finish(RolledOver(s), c.left, then_)
    case Raise(value, then_) => Finish(s.(io := s.io.(tima := Int(value))), c.left, then_)
    case TakeTima => FromTima(s, c.left)
    case StoreTima(value) => FromTma(s.(io := s.io.(tima := Int(value))), c.left)
    case TakeTma => FromTma(s, c.left)
    case StoreTma(value) => FromTma(s.(io := s.io.(tima := Int(value))), c.left)
    case TakeTac => FromTac(s, c.left)
    case Reload(step) => Chunked(Reloaded(s.(io := s.io.(tima := s.t.pending)), s.io.flags | 0x04), step, c.left)
    case ReloadIf(step) => Chunked(Reloaded(s, s.io.flags | 0x04), step, c.left)
    case RaiseIf(step, value) => Chunked(Reloaded(s, value), step, c.left)
    case Divide(step) => Chunked(s, step, c.left)
    case DivideTac(before) => T.Cycles(ChunkEnd(s, before), c.left)
    case Idle => s
  }

  function Reloaded(s: T.Sys, flags: bv8): T.Sys {
    T.Sys(s.t.(state := T.Reloading), s.io.(flags := T.SetFlags(flags), reloads := s.io.reloads + 1))
  }

  /** A scheduled reload finds TIMA at zero, and a chunk is never longer than the cycles left. */
  predicate Sound(c: Client, m: Bus) {
    match c.at
    case Schedule(_) => m.io[TIMA] == 0
    case Reload(step) => 0 < step <= c.left
    case ReloadIf(step) => 0 < step <= c.left
    case RaiseIf(step, _) => 0 < step <= c.left
    case Divide(step) => 0 < step <= c.left
    case _ => true
  }

  // ----- Each call keeps what is owed -----

  lemma DivideRest(c: Client, m: Bus, step: nat)
    requires c.at == Divide(step)
    ensures Rest(c, m) == Chunked(System(c, m), step, c.left)
  {
    hide Chunked, Int, IntOption;
  }

  lemma ReloadRest(c: Client, m: Bus, step: nat)
    requires c.at == Reload(step)
    ensures var s := System(c, m);
      Rest(c, m) == Chunked(Reloaded(s.(io := s.io.(tima := s.t.pending)), s.io.flags | 0x04), step, c.left)
  {
    hide Chunked, Reloaded, Int, IntOption;
  }

  /** The overflow state before a chunk, as the client and as the timer advance it. */
  lemma AdvanceRest(c: Client, m: Bus, step: nat)
    requires c.left > 0 && step == if c.left < 4 then c.left else 4
    ensures Rest(NextChunk(c), m) == Chunked(T.AdvanceState(System(c, m), step), step, c.left)
    ensures NextChunk(c).left == c.left
    ensures NextChunk(c).at == Divide(step) || NextChunk(c).at == Reload(step)
  {
    hide Rest, Chunked, System, NextChunk, T.AdvanceState, Reloaded;
    NextChunkGoes(c, step);
    if NextChunk(c).at.Divide? {
      DivideRest(NextChunk(c), m, step);
      AdvanceWithoutReload(c, m, step);
    } else {
      ReloadRest(NextChunk(c), m, step);
      AdvanceWithReload(c, m, step);
    }
  }

  lemma NextChunkGoes(c: Client, step: nat)
    requires c.left > 0 && step == if c.left < 4 then c.left else 4
    ensures NextChunk(c).left == c.left
    ensures NextChunk(c).at == Divide(step) || NextChunk(c).at == Reload(step)
  {
  }

  lemma ReloadsWhenDue(c: Client, step: nat)
    requires c.left > 0 && step == (if c.left < 4 then c.left else 4) && NextChunk(c).at.Reload?
    ensures c.state.OverflowPending? && c.delay <= step && NextChunk(c) == c.(delay := 0, at := Reload(step))
  {
  }

  lemma AdvanceWithReload(c: Client, m: Bus, step: nat)
    requires c.left > 0 && step == (if c.left < 4 then c.left else 4) && NextChunk(c).at.Reload?
    ensures var s := System(NextChunk(c), m);
      Reloaded(s.(io := s.io.(tima := s.t.pending)), s.io.flags | 0x04) == T.AdvanceState(System(c, m), step)
  {
    hide T.SetFlags, Int, IntOption, NextChunk;
    ReloadsWhenDue(c, step);
  }

  lemma AdvanceWithoutReload(c: Client, m: Bus, step: nat)
    requires c.left > 0 && step == (if c.left < 4 then c.left else 4) && NextChunk(c).at.Divide?
    ensures System(NextChunk(c), m) == T.AdvanceState(System(c, m), step)
  {
    hide T.SetFlags, Int, IntOption;
  }

  lemma NextChunkRest(c: Client, m: Bus)
    ensures Sound(NextChunk(c), m) && Rest(NextChunk(c), m) == T.Cycles(System(c, m), c.left)
  {
    hide T.Cycles, Rest, System, NextChunk, Sound;
    if c.left == 0 {
      NoChunkRest(c, m);
    } else {
      SomeChunkRest(c, m);
    }
  }

  lemma NoChunkRest(c: Client, m: Bus)
    requires c.left == 0
    ensures Sound(NextChunk(c), m) && Rest(NextChunk(c), m) == T.Cycles(System(c, m), c.left)
  {
    hide T.Cycles, Rest, System, NextChunk, Sound;
    T.CyclesUnfold(System(c, m), 0);
    NoChunk(c);
    SoundChunk(c.(at := Idle), m);
    IdleRest(NextChunk(c), m);
    IdleSystem(c, m);
  }

  lemma SomeChunkRest(c: Client, m: Bus)
    requires c.left > 0
    ensures Sound(NextChunk(c), m) && Rest(NextChunk(c), m) == T.Cycles(System(c, m), c.left)
  {
    hide T.AdvanceState, T.Cycles, Rest, Chunked, System, NextChunk, Sound;
    var step := if c.left < 4 then c.left else 4;
    OneChunk(System(c, m), c.left, step);
    AdvanceRest(c, m, step);
    SoundChunk(NextChunk(c), m);
  }

  lemma SoundChunk(c: Client, m: Bus)
    requires c.at.Idle? || ((c.at.Divide? || c.at.Reload?) && 0 < c.at.step <= c.left)
    ensures Sound(c, m)
  {
  }

  lemma NoChunk(c: Client)
    requires c.left == 0
    ensures NextChunk(c) == c.(at := Idle)
  {
  }

  lemma IdleSystem(c: Client, m: Bus)
    ensures System(c.(at := Idle), m) == System(c, m)
  {
    hide Int, IntOption;
  }

  lemma IdleRest(c: Client, m: Bus)
    requires c.at.Idle?
    ensures Rest(c, m) == System(c, m)
  {
    hide Int, IntOption;
  }

  lemma OneChunk(s: T.Sys, left: nat, step: nat)
    requires left > 0 && step == if left < 4 then left else 4
    ensures T.Cycles(s, left) == Chunked(T.AdvanceState(s, step), step, left)
  {
    hide T.ApplyDiv, T.AdvanceState;
    var s1 := T.Chunk(s, step);
    assert T.Cycles(s1, 0) == s1;
  }

  lemma ResumeRest(c: Client, m: Bus, then_: Then)
    ensures Sound(Resume(c, then_), m) && Rest(Resume(c, then_), m) == Finish(System(c, m), c.left, then_)
  {
    hide Sound, Rest, Resume, Finish, System;
    match then_ {
      case ToReset(input) => ResumeReset(c, m, input);
      case ToTac(tac) => ResumeTac(c, m, tac);
      case ToChunk(tac) => ResumeChunk(c, m, tac);
    }
  }

  lemma InputSystem(c: Client, m: Bus, input: bool, at: Place)
    ensures System(c.(input := input, at := at), m) == WithInput(System(c, m), input)
    ensures System(c, m).t.div == c.div
  {
    hide RegsOf, Int;
  }

  lemma ResumeReset(c: Client, m: Bus, input: bool)
    ensures var c' := Resume(c, ToReset(input));
      Sound(c', m) && Rest(c', m) == Finish(System(c, m), c.left, ToReset(input))
  {
    hide FromReset, System, WithInput;
    InputSystem(c, m, input, Reset);
  }

  lemma ResumeTac(c: Client, m: Bus, tac: bv8)
    ensures var c' := Resume(c, ToTac(tac));
      Sound(c', m) && Rest(c', m) == Finish(System(c, m), c.left, ToTac(tac))
  {
    hide FromTac, System, WithInput, T.Signal;
    InputSystem(c, m, T.Signal(c.div, tac), TakeTac);
  }

  lemma ResumeChunk(c: Client, m: Bus, tac: bv8)
    ensures var c' := Resume(c, ToChunk(tac));
      Sound(c', m) && Rest(c', m) == Finish(System(c, m), c.left, ToChunk(tac))
  {
    hide T.Cycles, T.Signal, NextChunk, System, WithInput, Rest, Sound;
    InputSystem(c, m, T.Signal(c.div, tac), c.at);
    NextChunkRest(c.(input := T.Signal(c.div, tac)), m);
  }

  /** One call: the bus and the client after it owe what they owed before. */
  ghost predicate Keeps(c: Client, m: Bus)
    requires Ask(c).Some?
  {
    var (m', answer) := Serve(m, Ask(c).value);
    Sound(Tell(c, answer), m') && Rest(Tell(c, answer), m') == Rest(c, m)
  }

  lemma ResetKeeps(c: Client, m: Bus)
    requires Sound(c, m) && c.at.Reset?
    ensures Keeps(c, m)
  {
    hide FromTima, T.Increment, T.Signal, T.ReadTac, Int, IntOption;
    var s := System(c, m);
    if m.latches.divReset {
      var s1 := s.(t := s.t.(div := 0), io := s.io.(divReset := false, div := 0));
      ResetTwice(s, s1);
    }
  }

  /** A reset that has been taken is not taken again. */
  lemma ResetTwice(s: T.Sys, s1: T.Sys)
    requires s.io.divReset && s1 == s.(t := s.t.(div := 0), io := s.io.(divReset := false, div := 0))
    ensures T.TakeDivReset(s) == ResetEnd(s1) && T.TakeDivReset(ResetEnd(s1)) == ResetEnd(s1)
  {
    hide T.Signal, T.ReadTac;
  }

  lemma ZeroDivKeeps(c: Client, m: Bus)
    requires Sound(c, m) && c.at.ZeroDiv?
    ensures Keeps(c, m)
  {
    hide FromReset, ResetEnd, Int, IntOption;
  }

  lemma ResetTacKeeps(c: Client, m: Bus)
    requires Sound(c, m) && c.at.ResetTac?
    ensures Keeps(c, m)
  {
    hide FromReset, T.Increment, T.Signal, Int, IntOption;
  }

  lemma BumpKeeps(c: Client, m: Bus)
    requires Sound(c, m) && c.at.Bump?
    ensures Keeps(c, m)
  {
    hide Finish, Int, IntOption;
    NextByte(m.io[TIMA]);
  }

  lemma NextByte(v: bv8)
    ensures v == 0xFF <==> Int(v) == 0xFF
    ensures v != 0xFF ==> Int(v + 1) == Int(v) + 1
  {
  }

  lemma RollKeeps(c: Client, m: Bus)
    requires Sound(c, m) && c.at.Roll?
    ensures Keeps(c, m)
  {
    hide Finish, Int, IntOption;
    ZeroByte();
  }

  lemma ZeroByte()
    ensures Int(0) == 0
  {
  }

  lemma ScheduleKeeps(c: Client, m: Bus)
    requires Sound(c, m) && c.at.Schedule?
    ensures Keeps(c, m)
  {
    hide Finish, Resume, Rest, Int, IntOption;
    ZeroByte();
    var c1 := c.(pending := m.io[TMA], delay := 4, state := T.OverflowPending);
    ResumeRest(c1, m, c.at.then_);
    ScheduleRest(c, m);
  }

  lemma ScheduleRest(c: Client, m: Bus)
    requires c.at.Schedule?
    ensures Rest(c, m) == Finish(RolledOver(System(c, m)), c.left, c.at.then_)
  {
    hide Finish, Int, IntOption;
  }

  lemma RaiseKeeps(c: Client, m: Bus)
    requires Sound(c, m) && c.at.Raise?
    ensures Keeps(c, m)
  {
    hide Finish, Resume, Int, IntOption;
    var m' := Serve(m, PutTima(c.at.value)).0;
    ResumeRest(c, m', c.at.then_);
  }

  lemma TimaRest(c: Client, m: Bus)
    requires c.at.TakeTima?
    ensures Rest(c, m) == FromTima(System(c, m), c.left)
  {
    hide FromTima, Int, IntOption;
  }

  lemma StoreRest(c: Client, m: Bus, value: bv8)
    requires c.at == StoreTima(value) || c.at == StoreTma(value)
    ensures var s := System(c, m); Rest(c, m) == FromTma(s.(io := s.io.(tima := Int(value))), c.left)
  {
    hide FromTma, Int, IntOption;
  }

  lemma TmaRest(c: Client, m: Bus)
    requires c.at.TakeTma?
    ensures Rest(c, m) == FromTma(System(c, m), c.left)
  {
    hide FromTma, Int, IntOption;
  }

  lemma TacRest(c: Client, m: Bus)
    requires c.at.TakeTac?
    ensures Rest(c, m) == FromTac(System(c, m), c.left)
  {
    hide FromTac, Int, IntOption;
  }

  lemma TakeTimaCall(c: Client, m: Bus)
    requires c.at.TakeTima?
    ensures Ask(c) == Some(TakeTimaWrite)
    ensures Serve(m, TakeTimaWrite) == (m.(latches := m.latches.(tima := None)), MaybeByte(m.latches.tima))
    ensures Tell(c, MaybeByte(m.latches.tima)) == TellTima(c, MaybeByte(m.latches.tima))
  {
    hide TellTima;
  }

  /** What a taken TIMA write leaves, the store still to come included. */
  lemma TimaTaken(c: Client, m: Bus)
    ensures var c' := TellTima(c, MaybeByte(m.latches.tima));
      var s' := System(c', m.(latches := m.latches.(tima := None)));
      && c'.left == c.left
      && (c'.at.TakeTma? || c'.at.StoreTima?)
      && T.TakeTimaWrite(System(c, m))
         == if c'.at.TakeTma? then s' else s'.(io := s'.io.(tima := Int(c'.at.value)))
  {
    hide Int, System, RegsOf;
    TimaLatch(c, m);
    if m.latches.tima.None? {
      TimaSystem(c.(at := TakeTma), m);
    } else {
      match c.state {
        case Running => TimaSystem(c.(at := StoreTima(m.latches.tima.value)), m);
        case OverflowPending =>
          TimaSystem(c.(state := T.Running, delay := 0, at := StoreTima(m.latches.tima.value)), m);
        case Reloading => TimaSystem(c.(at := StoreTima(c.pending)), m);
      }
    }
  }

  lemma TimaLatch(c: Client, m: Bus)
    ensures var s := System(c, m);
      && s.io.timaWrite == IntOption(m.latches.tima) && s.t.state == c.state && s.t.pending == Int(c.pending)
      && System(c, m) == T.Sys(Fields(c), RegsOf(m, c.ticks, c.reloads))
  {
    hide Int, IntOption;
  }

  lemma TimaSystem(c: Client, m: Bus)
    ensures var io := RegsOf(m, c.ticks, c.reloads);
      System(c, m.(latches := m.latches.(tima := None))) == T.Sys(Fields(c), io.(timaWrite := None))
  {
    hide Int;
  }

  lemma SoundHere(c: Client, m: Bus)
    requires !(c.at.Schedule? || c.at.Reload? || c.at.ReloadIf? || c.at.RaiseIf? || c.at.Divide?)
    ensures Sound(c, m)
  {
  }

  lemma TakeTimaKeeps(c: Client, m: Bus)
    requires Sound(c, m) && c.at.TakeTima?
    ensures Keeps(c, m)
  {
    hide FromTma, Int, Rest, T.TakeTimaWrite, Ask, Serve, Tell, TellTima, System, Sound;
    TakeTimaCall(c, m);
    var (m', answer) := Serve(m, TakeTimaWrite);
    var c' := Tell(c, answer);
    TimaRest(c, m);
    TimaTaken(c, m);
    SoundHere(c', m');
    if c'.at.TakeTma? {
      TmaRest(c', m');
    } else {
      StoreRest(c', m', c'.at.value);
    }
  }

  lemma StoreTimaKeeps(c: Client, m: Bus)
    requires Sound(c, m) && c.at.StoreTima?
    ensures Keeps(c, m)
  {
    hide FromTma, Int, IntOption;
  }

  lemma TakeTmaCall(c: Client, m: Bus)
    requires c.at.TakeTma?
    ensures Ask(c) == Some(TakeTmaWrite)
    ensures Serve(m, TakeTmaWrite) == (m.(latches := m.latches.(tma := None)), MaybeByte(m.latches.tma))
    ensures Tell(c, MaybeByte(m.latches.tma)) ==
      match m.latches.tma
      case None => c.(at := TakeTac)
      case Some(value) => c.(pending := value, at := if c.state.Reloading? then StoreTma(value) else TakeTma)
  {
  }

  lemma TakeTmaKeeps(c: Client, m: Bus)
    requires Sound(c, m) && c.at.TakeTma?
    ensures Keeps(c, m)
  {
    hide FromTma, FromTac, Int, Rest, T.TakeTmaWrite, Ask, Serve, Tell;
    TakeTmaCall(c, m);
    var (m', answer) := Serve(m, TakeTmaWrite);
    var c' := Tell(c, answer);
    TmaRest(c, m);
    if m.latches.tma.None? {
      TacRest(c', m');
      TmaNotTaken(System(c, m), c.left);
    } else {
      TmaTaken(c, m, m.latches.tma.value);
      if c.state.Reloading? {
        StoreRest(c', m', m.latches.tma.value);
      } else {
        TmaRest(c', m');
      }
    }
  }

  lemma TmaNotTaken(s: T.Sys, left: nat)
    requires s.io.tmaWrite.None?
    ensures FromTma(s, left) == FromTac(s, left)
  {
    hide FromTac;
  }

  /** A write of TMA that has been taken is not taken again. */
  lemma TmaTaken(c: Client, m: Bus, value: bv8)
    requires m.latches.tma == Some(value)
    ensures var s := System(c, m);
      var io := s.io.(tmaWrite := None);
      var s1 := T.Sys(s.t.(pending := Int(value)), if c.state.Reloading? then io.(tima := Int(value)) else io);
      FromTma(s, c.left) == FromTma(s1, c.left)
  {
    hide FromTac, Int;
  }

  lemma StoreTmaKeeps(c: Client, m: Bus)
    requires Sound(c, m) && c.at.StoreTma?
    ensures Keeps(c, m)
  {
    hide FromTma, Int, IntOption;
  }

  lemma TakeTacKeeps(c: Client, m: Bus)
    requires Sound(c, m) && c.at.TakeTac?
    ensures Keeps(c, m)
  {
    hide FromTac, NextChunk, Rest, Resume, Finish, System, Ask, Serve, Tell, Sound;
    hide T.Increment, T.Bit, T.Enabled, T.Period;
    var m' := Serve(m, TakeTacWrite).0;
    TakeTacCall(c, m);
    TacRest(c, m);
    TacLatch(c, m);
    if m.latches.tac.None? {
      NextChunkRest(c, m');
      TacNotTaken(System(c, m), c.left);
    } else {
      var (old_, new_) := m.latches.tac.value;
      var bump := c.(at := Bump(ToTac(new_)));
      TacTaken(System(c, m), System(c, m'), old_, new_, c.left);
      ResumeRest(c, m', ToTac(new_));
      BumpRest(bump, m');
      BumpSystem(c, m', ToTac(new_));
      SoundHere(bump, m');
    }
  }

  lemma TakeTacCall(c: Client, m: Bus)
    requires c.at.TakeTac?
    ensures Ask(c) == Some(TakeTacWrite)
    ensures Serve(m, TakeTacWrite) == (m.(latches := m.latches.(tac := None)), MaybePair(m.latches.tac))
    ensures Tell(c, MaybePair(m.latches.tac)) ==
      match m.latches.tac
      case None => NextChunk(c)
      case Some((old_, new_)) =>
        var falls := T.Enabled(old_) && T.Bit(c.div, T.Period(old_))
                     && (!T.Enabled(new_) || !T.Bit(c.div, T.Period(new_)));
        if falls then c.(at := Bump(ToTac(new_))) else Resume(c, ToTac(new_))
  {
    hide NextChunk, Resume, T.Enabled, T.Bit, T.Period;
  }

  /** The latch as the timer's registers show it, and without it. */
  lemma TacLatch(c: Client, m: Bus)
    ensures var s, m' := System(c, m), m.(latches := m.latches.(tac := None));
      && s.io.tacWrite == m.latches.tac && s.t.div == c.div
      && System(c, m') == s.(io := s.io.(tacWrite := None))
      && (m.latches.tac.None? ==> m' == m)
  {
    hide Int, IntOption;
  }

  lemma BumpRest(c: Client, m: Bus)
    requires c.at.Bump?
    ensures Rest(c, m) == Finish(T.Increment(System(c, m)), c.left, c.at.then_)
  {
    hide Finish, T.Increment, Int, IntOption;
  }

  lemma BumpSystem(c: Client, m: Bus, then_: Then)
    ensures System(c.(at := Bump(then_)), m) == System(c, m)
  {
    hide Int, IntOption;
  }

  lemma TacNotTaken(s: T.Sys, left: nat)
    requires s.io.tacWrite.None?
    ensures FromTac(s, left) == T.Cycles(s, left)
  {
    hide T.Cycles;
  }

  /** A write of TAC that has been taken is not taken again. */
  lemma TacTaken(s: T.Sys, s1: T.Sys, old_: bv8, new_: bv8, left: nat)
    requires s.io.tacWrite == Some((old_, new_)) && s1 == s.(io := s.io.(tacWrite := None))
    ensures var falls := T.Enabled(old_) && T.Bit(s.t.div, T.Period(old_))
                         && (!T.Enabled(new_) || !T.Bit(s.t.div, T.Period(new_)));
      FromTac(s, left) == Finish(if falls then T.Increment(s1) else s1, left, ToTac(new_))
  {
    hide T.Cycles, T.Signal, T.Bit, T.Period, T.Enabled;
  }

  lemma ReloadKeeps(c: Client, m: Bus)
    requires Sound(c, m) && c.at.Reload?
    ensures Keeps(c, m)
  {
    hide Chunked, Reloaded, Int, IntOption;
  }

  lemma ReloadIfKeeps(c: Client, m: Bus)
    requires Sound(c, m) && c.at.ReloadIf?
    ensures Keeps(c, m)
  {
    hide Chunked, Reloaded, Int, IntOption;
  }

  lemma RaiseIfKeeps(c: Client, m: Bus)
    requires Sound(c, m) && c.at.RaiseIf?
    ensures Keeps(c, m)
  {
    hide Chunked, Int, IntOption;
  }

  lemma DivideKeeps(c: Client, m: Bus)
    requires Sound(c, m) && c.at.Divide?
    ensures Keeps(c, m)
  {
    hide T.Cycles, T.Increment, T.Signal, T.Bit, T.Period, T.Enabled, T.ReadTac, Int, IntOption, T.HighByte;
    DivideIsChunkEnd(System(c, m), c.at.step);
  }

  /** The divider chunk in two halves: moving the divider, then looking at what fell. */
  lemma DivideIsChunkEnd(s: T.Sys, step: nat)
    requires step > 0
    ensures var new_ := Wrapped(s.t.div + step);
      T.ApplyDiv(s, step)
      == ChunkEnd(T.Sys(s.t.(div := new_), s.io.(div := T.HighByte(new_))), s.t.div)
  {
    hide T.Bit, T.Period, T.Enabled, T.ReadTac, T.Signal, T.HighByte;
    var new_ := Wrapped(s.t.div + step);
    T.ReadTacSignal(new_, s.io);
  }

  lemma DivideTacCall(c: Client, m: Bus)
    requires c.at.DivideTac?
    ensures Ask(c) == Some(GetTac) && Serve(m, GetTac) == (m, MemoryBus.Byte(m.io[TAC] | 0xF8))
    ensures var tac := m.io[TAC] | 0xF8;
      var falls := T.Enabled(tac) && T.Bit(c.at.before, T.Period(tac)) && !T.Bit(c.div, T.Period(tac));
      Tell(c, MemoryBus.Byte(tac)) == if falls then c.(at := Bump(ToChunk(tac))) else Resume(c, ToChunk(tac))
  {
    hide Resume, T.Bit, T.Enabled, T.Period;
  }

  lemma DivideTacKeeps(c: Client, m: Bus)
    requires Sound(c, m) && c.at.DivideTac?
    ensures Keeps(c, m)
  {
    hide T.Cycles, T.Increment, T.Signal, T.Bit, T.Period, T.Enabled, T.ReadTac, ChunkEnd;
    hide Rest, Resume, Finish, System, Ask, Serve, Tell, Sound;
    var tac := m.io[TAC] | 0xF8;
    DivideTacCall(c, m);
    DivideTacRest(c, m);
    ResumeRest(c, m, ToChunk(tac));
    var bump := c.(at := Bump(ToChunk(tac)));
    SoundHere(bump, m);
    BumpRest(bump, m);
    BumpSystem(c, m, ToChunk(tac));
    ChunkEnds(System(c, m), c.at.before, c.left);
    SystemTac(c, m);
  }

  lemma SystemTac(c: Client, m: Bus)
    ensures T.ReadTac(System(c, m).io) == m.io[TAC] | 0xF8 && System(c, m).t.div == c.div
  {
    hide Int, IntOption;
  }

  lemma DivideTacRest(c: Client, m: Bus)
    requires c.at.DivideTac?
    ensures Rest(c, m) == T.Cycles(ChunkEnd(System(c, m), c.at.before), c.left)
  {
    hide ChunkEnd, T.Cycles, Int, IntOption;
  }

  lemma ChunkEnds(s: T.Sys, before: nat, left: nat)
    ensures var tac := T.ReadTac(s.io);
      var falls := T.Enabled(tac) && T.Bit(before, T.Period(tac)) && !T.Bit(s.t.div, T.Period(tac));
      T.Cycles(ChunkEnd(s, before), left) == Finish(if falls then T.Increment(s) else s, left, ToChunk(tac))
  {
    hide T.Cycles, T.Signal, T.Bit, T.Period, T.Enabled, T.Increment, T.ReadTac;
  }

  lemma CallKeeps(c: Client, m: Bus)
    requires Sound(c, m) && !c.at.Idle?
    ensures Keeps(c, m)
  {
    hide Sound, Keeps;
    match c.at {
      case Reset => ResetKeeps(c, m);
      case ZeroDiv => ZeroDivKeeps(c, m);
      case ResetTac => ResetTacKeeps(c, m);
      case Bump(_) => BumpKeeps(c, m);
      case Roll(_) => RollKeeps(c, m);
      case Schedule(_) => ScheduleKeeps(c, m);
      case Raise(_, _) => RaiseKeeps(c, m);
      case TakeTima => TakeTimaKeeps(c, m);
      case StoreTima(_) => StoreTimaKeeps(c, m);
      case TakeTma => TakeTmaKeeps(c, m);
      case StoreTma(_) => StoreTmaKeeps(c, m);
      case TakeTac => TakeTacKeeps(c, m);
      case Reload(_) => ReloadKeeps(c, m);
      case ReloadIf(_) => ReloadIfKeeps(c, m);
      case RaiseIf(_, _) => RaiseIfKeeps(c, m);
      case Divide(_) => DivideKeeps(c, m);
      case DivideTac(_) => DivideTacKeeps(c, m);
    }
  }

  // ----- The step comes to an end -----

  /** Calls the remaining chunks can take at most: eight each. */
  function ChunkCalls(left: nat): nat {
    8 * ((left + 3) / 4)
  }

  function TacCalls(m: Bus, left: nat): nat {
    (if m.latches.tac.Some? then 4 else 0) + 1 + ChunkCalls(left)
  }

  function TmaCalls(m: Bus, left: nat): nat {
    (if m.latches.tma.Some? then 2 else 0) + 1 + TacCalls(m, left)
  }

  function TimaCalls(m: Bus, left: nat): nat {
    2 + TmaCalls(m, left)
  }

  function ResetCalls(m: Bus, left: nat): nat {
    (if m.latches.divReset then 6 else 0) + 1 + TimaCalls(m, left)
  }

  function ThenCalls(m: Bus, left: nat, then_: Then): nat {
    match then_
    case ToReset(_) => ResetCalls(m, left)
    case ToTac(_) => TacCalls(m, left)
    case ToChunk(_) => ChunkCalls(left)
  }

  function After(step: nat, left: nat): nat {
    ChunkCalls(if left >= step then left - step else 0)
  }

  /** Calls the step can still make at most. */
  function Calls(c: Client, m: Bus): nat {
    match c.at
    case Reset => ResetCalls(m, c.left)
    case ZeroDiv => 5 + ResetCalls(m, c.left)
    case ResetTac => 4 + ResetCalls(m, c.left)
    case Bump(then_) => 3 + ThenCalls(m, c.left, then_)
    case Roll(then_) => 2 + ThenCalls(m, c.left, then_)
    case Schedule(then_) => 1 + ThenCalls(m, c.left, then_)
    case Raise(_, then_) => 1 + ThenCalls(m, c.left, then_)
    case TakeTima => TimaCalls(m, c.left)
    case StoreTima(_) => 1 + TmaCalls(m, c.left)
    case TakeTma => TmaCalls(m, c.left)
    case StoreTma(_) => 1 + TmaCalls(m, c.left)
    case TakeTac => TacCalls(m, c.left)
    case Reload(step) => 8 + After(step, c.left)
    case ReloadIf(step) => 7 + After(step, c.left)
    case RaiseIf(step, _) => 6 + After(step, c.left)
    case Divide(step) => 5 + After(step, c.left)
    case DivideTac(_) => 4 + ChunkCalls(c.left)
    case Idle => 0
  }

  lemma ChunkShrinks(left: nat)
    requires left > 0
    ensures ChunkCalls(left) == 8 + After(if left < 4 then left else 4, left)
  {
  }

  lemma NextChunkCalls(c: Client, m: Bus)
    ensures Calls(NextChunk(c), m) <= ChunkCalls(c.left)
  {
    hide ChunkCalls, After;
    if c.left > 0 { ChunkShrinks(c.left); }
  }

  lemma ResumeCalls(c: Client, m: Bus, then_: Then)
    ensures Calls(Resume(c, then_), m) <= ThenCalls(m, c.left, then_)
  {
    hide ChunkCalls, NextChunk, T.Signal;
    if then_.ToChunk? { NextChunkCalls(c.(input := T.Signal(c.div, then_.tac)), m); }
  }

  ghost predicate Shrinks(c: Client, m: Bus)
    requires Ask(c).Some?
  {
    var (m', answer) := Serve(m, Ask(c).value);
    Calls(Tell(c, answer), m') < Calls(c, m)
  }

  lemma ResetsShrink(c: Client, m: Bus)
    requires c.at.Reset? || c.at.ZeroDiv? || c.at.ResetTac?
    ensures Shrinks(c, m)
  {
    hide TimaCalls, T.Signal;
    SameTimaCalls(m, Serve(m, Ask(c).value).0, c.left);
  }

  lemma TimaShrinks(c: Client, m: Bus)
    requires c.at.TakeTima? || c.at.StoreTima?
    ensures Shrinks(c, m)
  {
    hide TmaCalls;
    SameTmaCalls(m, Serve(m, Ask(c).value).0, c.left);
  }

  lemma SameTmaCalls(m: Bus, m': Bus, left: nat)
    ensures m.latches.tma == m'.latches.tma && m.latches.tac == m'.latches.tac ==>
      TmaCalls(m, left) == TmaCalls(m', left)
  {
    hide ChunkCalls;
  }

  lemma TmaShrinks(c: Client, m: Bus)
    requires c.at.TakeTma? || c.at.StoreTma?
    ensures Shrinks(c, m)
  {
    hide TacCalls;
    SameTacCalls(m, Serve(m, Ask(c).value).0, c.left);
  }

  lemma SameTacCalls(m: Bus, m': Bus, left: nat)
    ensures m.latches.tac == m'.latches.tac ==> TacCalls(m, left) == TacCalls(m', left)
  {
    hide ChunkCalls;
  }

  lemma SameTimaCalls(m: Bus, m': Bus, left: nat)
    ensures m.latches.tma == m'.latches.tma && m.latches.tac == m'.latches.tac ==>
      TimaCalls(m, left) == TimaCalls(m', left)
  {
    hide ChunkCalls;
  }

  lemma ReloadsShrink(c: Client, m: Bus)
    requires c.at.Reload? || c.at.ReloadIf? || c.at.RaiseIf?
    ensures Shrinks(c, m)
  {
    hide After;
  }

  lemma ChunksShrink(c: Client, m: Bus)
    requires c.at.Divide? || c.at.Roll?
    ensures Shrinks(c, m)
  {
    hide ChunkCalls;
  }

  lemma BumpShrinks(c: Client, m: Bus)
    requires c.at.Bump?
    ensures Shrinks(c, m)
  {
    hide ThenCalls;
  }

  lemma ResumesShrink(c: Client, m: Bus)
    requires c.at.Raise? || c.at.Schedule?
    ensures Shrinks(c, m)
  {
    hide Resume;
    var m' := Serve(m, Ask(c).value).0;
    SameCalls(m, m', c.left, c.at.then_);
    if c.at.Raise? {
      ResumeCalls(c, m', c.at.then_);
    } else {
      ResumeCalls(c.(pending := m.io[TMA], delay := 4, state := T.OverflowPending), m', c.at.then_);
    }
  }

  lemma SameCalls(m: Bus, m': Bus, left: nat, then_: Then)
    ensures m.latches == m'.latches ==> ThenCalls(m, left, then_) == ThenCalls(m', left, then_)
  {
    hide ChunkCalls;
  }

  lemma TacShrinks(c: Client, m: Bus)
    requires c.at.TakeTac?
    ensures Shrinks(c, m)
  {
    hide Resume, NextChunk, ChunkCalls, T.Bit, T.Enabled, T.Period;
    var m' := Serve(m, TakeTacWrite).0;
    if m.latches.tac.None? {
      NextChunkCalls(c, m');
    } else {
      ResumeCalls(c, m', ToTac(m.latches.tac.value.1));
    }
  }

  lemma DivideTacShrinks(c: Client, m: Bus)
    requires c.at.DivideTac?
    ensures Shrinks(c, m)
  {
    hide Resume, ChunkCalls, T.Bit, T.Enabled, T.Period, Tell, Ask, Serve;
    DivideTacCall(c, m);
    ResumeCalls(c, m, ToChunk(m.io[TAC] | 0xF8));
  }

  lemma CallShrinks(c: Client, m: Bus)
    requires !c.at.Idle?
    ensures Shrinks(c, m)
  {
    hide Shrinks, Calls;
    match c.at {
      case Bump(_) => BumpShrinks(c, m);
      case Raise(_, _) => ResumesShrink(c, m);
      case Schedule(_) => ResumesShrink(c, m);
      case TakeTac => TacShrinks(c, m);
      case DivideTac(_) => DivideTacShrinks(c, m);
      case Reload(_) => ReloadsShrink(c, m);
      case ReloadIf(_) => ReloadsShrink(c, m);
      case RaiseIf(_, _) => ReloadsShrink(c, m);
      case Divide(_) => ChunksShrink(c, m);
      case Roll(_) => ChunksShrink(c, m);
      case Reset => ResetsShrink(c, m);
      case ZeroDiv => ResetsShrink(c, m);
      case ResetTac => ResetsShrink(c, m);
      case TakeTima => TimaShrinks(c, m);
      case StoreTima(_) => TimaShrinks(c, m);
      case _ => TmaShrinks(c, m);
    }
  }

  // ----- The step, run call by call -----

  lemma {:induction false} RunsToRest(c: Client, m: Bus, turns: nat, limit: nat)
    requires Sound(c, m) && Calls(c, m) <= turns
    ensures var (m', c') := Turn(ScalarBackend(), TimerDevice(limit), m, c, turns);
      c'.at.Idle? && Sound(c', m') && System(c', m') == Rest(c, m)
    decreases turns
  {
    hide Sound, Calls, Rest, Tell, Ask, Serve, System;
    IdleCalls(c, m);
    if c.at.Idle? {
      IdleRest(c, m);
      IdleStops(c, m, turns, limit);
    } else {
      CallKeeps(c, m);
      CallShrinks(c, m);
      var (m', answer) := Serve(m, Ask(c).value);
      TurnOnce(c, m, turns, limit);
      RunsToRest(Tell(c, answer), m', turns - 1, limit);
    }
  }

  lemma IdleCalls(c: Client, m: Bus)
    ensures c.at.Idle? <==> Calls(c, m) == 0
    ensures c.at.Idle? <==> Ask(c).None?
  {
    hide ChunkCalls;
  }

  lemma IdleStops(c: Client, m: Bus, turns: nat, limit: nat)
    requires Ask(c).None?
    ensures Turn(ScalarBackend(), TimerDevice(limit), m, c, turns) == (m, c)
  {
    hide Ask, Tell, ScalarBackend;
  }

  lemma TurnOnce(c: Client, m: Bus, turns: nat, limit: nat)
    requires Ask(c).Some? && turns > 0
    ensures var (m', answer) := Serve(m, Ask(c).value);
      Turn(ScalarBackend(), TimerDevice(limit), m, c, turns)
      == Turn(ScalarBackend(), TimerDevice(limit), m', Tell(c, answer), turns - 1)
  {
    hide Ask, Tell, Serve;
  }

  /** A step of the timer made call by call on the bus is the timer's step on the bus's registers,
      whatever writes were latched: with room for its calls it ends, and timer and registers are those
      the step function gives. */
  lemma StepByCalls(c: Client, m: Bus, n: nat, turns: nat)
    requires ResetCalls(m, n) <= turns
    ensures var (m', c') := Turn(ScalarBackend(), TimerDevice(turns), m, Begin(c, n), turns);
      && c'.at.Idle? && System(c', m') == T.Step(System(c, m), n)
  {
    hide Rest, Calls, System, Turn, ResetCalls, Sound;
    var c0 := Begin(c, n);
    BeginIs(c, m, n);
    RunsToRest(c0, m, turns, turns);
  }

  lemma BeginIs(c: Client, m: Bus, n: nat)
    ensures var c0 := Begin(c, n);
      && Sound(c0, m) && Calls(c0, m) == ResetCalls(m, n) && Rest(c0, m) == T.Step(System(c, m), n)
  {
    hide T.Cycles, T.TakeDivReset, T.TakeTimaWrite, T.TakeTmaWrite, T.TakeTacWrite, Int, IntOption, ResetCalls;
  }

  /** And so in every lane: the shared timer steps once, and each lane's registers are those the step
      function gives. */
  lemma StepInEveryLane(lanes: nat, c: Client, m: Bus, n: nat, turns: nat, i: nat)
    requires i < lanes && ResetCalls(m, n) <= turns
    ensures var (bus, c') := Turn(SimdBackend(lanes), TimerDevice(turns), Splat(lanes, m), Begin(c, n), turns);
      && |bus| == lanes && c'.at.Idle?
      && System(c', bus[i]) == T.Step(System(c, m), n)
  {
    hide System, Turn, ResetCalls;
    StepByCalls(c, m, n, turns);
    TurnSim(lanes, TimerDevice(turns), m, Begin(c, n), turns);
  }

  /** Nothing on the bus differs but DIV, TIMA, the interrupt flags and the latched writes. */
  predicate OnlyTimers(m: Bus, m': Bus) {
    && m' == m.(io := m'.io, latches := m'.latches)
    && forall i: RegIndex :: i != DIV && i != TIMA && i != IF ==> m'.io[i] == m.io[i]
  }

  predicate TimersCall(call: Call) {
    !call.PutReg? && !call.StepSerial?
  }

  lemma CallTouches(m: Bus, call: Call)
    requires TimersCall(call)
    ensures OnlyTimers(m, Serve(m, call).0)
  {
    hide ReadReg;
  }

  lemma AsksTimers(c: Client)
    ensures Ask(c).Some? ==> TimersCall(Ask(c).value)
  {
    hide T.HighByte;
  }

  /** The timer's calls leave the rest of the bus alone. */
  lemma {:induction false} TurnTouches(c: Client, m: Bus, turns: nat, limit: nat)
    ensures OnlyTimers(m, Turn(ScalarBackend(), TimerDevice(limit), m, c, turns).0)
    decreases turns
  {
    hide Tell, Ask, Serve, TimersCall;
    if turns > 0 && Ask(c).Some? {
      var (m', answer) := Serve(m, Ask(c).value);
      AsksTimers(c);
      CallTouches(m, Ask(c).value);
      TurnOnce(c, m, turns, limit);
      TurnTouches(Tell(c, answer), m', turns - 1, limit);
    } else if Ask(c).None? {
      IdleStops(c, m, turns, limit);
    }
  }

  /** A span of an instruction's length needs at most 65 calls. */
  lemma CallsWithinInstruction(m: Bus, n: nat)
    requires n <= 24
    ensures ResetCalls(m, n) <= 65
  {
    assert (n + 3) / 4 <= 6;
  }

  /** The core feeds the timer: consuming `n` cycles, with room for the timer's calls, steps timer and
      registers by exactly `n`. 65 calls are room enough for every span the core hands out. */
  lemma ConsumeStepsTimer(m: Scalar<Client>, n: nat, turns: nat)
    requires n > 0 && (ResetCalls(m.bus, n) <= turns || (n <= 24 && 65 <= turns))
    ensures var r := Consume(ScalarBackend(), TimerDevice(turns), m, n);
      r.dev.at.Idle? && System(r.dev, r.bus) == T.Step(System(m.dev, m.bus), n)
  {
    hide System, Turn, ResetCalls, ScalarBackend;
    if n <= 24 { CallsWithinInstruction(m.bus, n); }
    StepByCalls(m.dev, m.bus, n, turns);
  }
}
