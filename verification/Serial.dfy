/**
 The serial link: eight bits shifted out under the internal clock, one every 512 cycles, with
 ones shifted in because nothing is connected.
 */
module Serial {
  import opened Arithmetic

  const CYCLES_PER_BIT := 512
  const TRANSFER_CYCLES := 4096

  /** The shifter together with SB, SC and the interrupt flags. */
  datatype Link = Link(
    active: bool, internalClock: bool, counter: nat, bits: nat, shift: bv8, pending: bv8,
    sb: bv8, sc: bv8, flags: bv8, out: seq<bv8>)

  function Parked(s: Link): Link {
    s.(active := false, counter := 0, bits := 0)
  }

  /** A CPU write to SC. */
  function WriteControl(s: Link, value: bv8): Link {
    var before := s.sc & 0x81;
    var s1 := s.(sc := value & 0x81);
    if value & 0x80 == 0 then Parked(s1)
    else
      var s2 := s1.(internalClock := value & 0x01 != 0);
      if before & 0x80 != 0 && s.active then s2
      else
        var s3 := Parked(s2).(pending := s2.sb, shift := s2.sb, bits := 8, active := true);
        if s3.internalClock then s3.(counter := CYCLES_PER_BIT) else s3
  }

  function Finish(s: Link): Link {
    Parked(s).(sc := s.sc & 0x01, flags := ((s.flags | 0x08) & 0x1F) | 0xE0, out := s.out + [s.pending])
  }

  function ClockBit(s: Link): Link {
    var shift := (s.shift << 1) | 1;
    var s1 := s.(shift := shift, sb := shift, bits := if s.bits > 0 then s.bits - 1 else 0);
    if s1.bits == 0 then Finish(s1) else s1
  }

  /** The loop that spends cycles on bits. */
  function Spend(s: Link, n: nat): Link
    decreases n
  {
    if !s.active || n == 0 then s
    else
      var counter := if s.counter == 0 then CYCLES_PER_BIT else s.counter;
      if n >= counter then Spend(ClockBit(s.(counter := 0)), n - counter)
      else s.(counter := counter - n)
  }

  function Advance(s: Link, n: nat): Link {
    if !s.active || !s.internalClock then s else Spend(s, n)
  }

  // ----- Splitting -----

  /** Cycles left of the current bit time. */
  function Due(s: Link): (c: nat)
    ensures c > 0
  {
    if s.counter == 0 then CYCLES_PER_BIT else s.counter
  }

  lemma SpendIs(s: Link, n: nat)
    requires s.active && n > 0
    ensures n >= Due(s) ==> Spend(s, n) == Spend(ClockBit(s.(counter := 0)), n - Due(s))
    ensures n < Due(s) ==> Spend(s, n) == s.(counter := Due(s) - n) && Due(s.(counter := Due(s) - n)) == Due(s) - n
  {
    hide ClockBit;
  }

  lemma {:induction false} SpendAdds(s: Link, a: nat, b: nat)
    ensures Spend(s, a + b) == Spend(Spend(s, a), b)
    decreases a
  {
    hide ClockBit, Spend, Due;
    SpendNothing(s);
    if !s.active {
      SpendParked(s, a);
      SpendParked(s, a + b);
      SpendParked(s, b);
    } else if a > 0 {
      SpendIs(s, a);
      SpendIs(s, a + b);
      if a >= Due(s) {
        SpendAdds(ClockBit(s.(counter := 0)), a - Due(s), b);
      } else if b > 0 {
        SpendIs(s.(counter := Due(s) - a), b);
      } else {
        SpendNothing(Spend(s, a));
      }
    }
  }

  lemma SpendNothing(s: Link)
    ensures Spend(s, 0) == s
  {
  }

  /** Cycles may be split over calls in any way, in any state of the link. */
  lemma AdvanceAdds(s: Link, a: nat, b: nat)
    ensures Advance(Advance(s, a), b) == Advance(s, a + b)
  {
    hide Spend;
    if s.active && s.internalClock {
      SpendAdds(s, a, b);
      SpendKeepsClock(s, a);
      if !Spend(s, a).active { SpendParked(Spend(s, a), b); }
    }
  }

  lemma SpendParked(s: Link, n: nat)
    requires !s.active
    ensures Spend(s, n) == s
  {
  }

  lemma {:induction false} SpendKeepsClock(s: Link, n: nat)
    ensures Spend(s, n).internalClock == s.internalClock
    decreases n
  {
    hide ClockBit, Spend, Due;
    if s.active && n > 0 {
      SpendIs(s, n);
      if n >= Due(s) {
        ClockKeepsClock(s.(counter := 0));
        SpendKeepsClock(ClockBit(s.(counter := 0)), n - Due(s));
      }
    } else if n == 0 {
      SpendNothing(s);
    } else {
      SpendParked(s, n);
    }
  }

  lemma ClockKeepsClock(s: Link)
    ensures ClockBit(s).internalClock == s.internalClock
  {
  }

  /** Calls of any sizes amount to one call of their sum. */
  function AdvanceAll(s: Link, spans: seq<nat>): Link
    decreases |spans|
  {
    if spans == [] then s else AdvanceAll(Advance(s, spans[0]), spans[1..])
  }

  function Sum(spans: seq<nat>): nat
    decreases |spans|
  {
    if spans == [] then 0 else spans[0] + Sum(spans[1..])
  }

  lemma {:induction false} AnySplit(s: Link, spans: seq<nat>)
    ensures AdvanceAll(s, spans) == Advance(s, Sum(spans))
    decreases |spans|
  {
    hide Advance;
    if spans == [] {
      AdvanceNothing(s);
    } else {
      AnySplit(Advance(s, spans[0]), spans[1..]);
      AdvanceAdds(s, spans[0], Sum(spans[1..]));
    }
  }

  lemma AdvanceNothing(s: Link)
    ensures Advance(s, 0) == s
  {
  }

  // ----- The closed form -----

  /** `b` after `k` ones have been shifted in. */
  function ShiftOnes(b: bv8, k: nat): bv8 {
    if k == 0 then b else (ShiftOnes(b, k - 1) << 1) | 1
  }

  lemma AllOnes(b: bv8)
    ensures ShiftOnes(b, 8) == 0xFF
  {
    EightShifts(b);
    assert ShiftOnes(b, 4) == (ShiftOnes(b, 3) << 1) | 1;
    assert ShiftOnes(b, 8) == (ShiftOnes(b, 7) << 1) | 1;
    assert ShiftOnes(b, 6) == (ShiftOnes(b, 5) << 1) | 1;
    assert ShiftOnes(b, 2) == (ShiftOnes(b, 1) << 1) | 1;
    assert ShiftOnes(b, 1) == (ShiftOnes(b, 0) << 1) | 1;
  }

  lemma EightShifts(b: bv8)
    ensures var four := (((((((b << 1) | 1) << 1) | 1) << 1) | 1) << 1) | 1;
      (((((((four << 1) | 1) << 1) | 1) << 1) | 1) << 1) | 1 == 0xFF
  {
  }

  /** A link whose internal transfer has just been started. */
  predicate Started(s: Link) {
    s.active && s.internalClock && s.counter == CYCLES_PER_BIT && s.bits == 8 && s.shift == s.pending == s.sb
  }

  /** The link `n` cycles into the transfer. */
  function After(s: Link, n: nat): Link {
    if n >= TRANSFER_CYCLES then
      Link(false, true, 0, 0, 0xFF, s.pending, 0xFF, s.sc & 0x01,
           ((s.flags | 0x08) & 0x1F) | 0xE0, s.out + [s.pending])
    else
      var k, r := n / CYCLES_PER_BIT, n % CYCLES_PER_BIT;
      var shift := ShiftOnes(s.pending, k);
      s.(counter := if n > 0 && r == 0 then 0 else CYCLES_PER_BIT - r, bits := 8 - k, shift := shift, sb := shift)
  }

  /** One more bit time from a bit boundary. */
  lemma NextBit(s: Link, k: nat)
    requires Started(s) && k < 8
    ensures Spend(After(s, k * CYCLES_PER_BIT), CYCLES_PER_BIT) == After(s, (k + 1) * CYCLES_PER_BIT)
  {
    hide ClockBit, Spend, After, ShiftOnes, Started;
    var at := After(s, k * CYCLES_PER_BIT);
    BitBoundary(s, k);
    StartedRuns(s);
    SpendIs(at, CYCLES_PER_BIT);
    SpendNothing(ClockBit(at.(counter := 0)));
    NextShift(s.pending, k);
    if k < 7 {
      BitBoundary(s, k + 1);
      ClockMiddle(at.(counter := 0));
    } else {
      AllOnes(s.pending);
      LastBit(s);
    }
  }

  lemma NextShift(b: bv8, k: nat)
    ensures ShiftOnes(b, k + 1) == (ShiftOnes(b, k) << 1) | 1
  {
  }

  lemma ClockMiddle(s: Link)
    requires s.bits > 1
    ensures var shift := (s.shift << 1) | 1;
      ClockBit(s) == s.(shift := shift, sb := shift, bits := s.bits - 1)
  {
    hide Finish;
  }

  lemma LastBit(s: Link)
    requires Started(s) && (ShiftOnes(s.pending, 7) << 1) | 1 == 0xFF
    ensures var shift := ShiftOnes(s.pending, 7);
      ClockBit(s.(counter := 0, bits := 1, shift := shift, sb := shift)) == After(s, 8 * CYCLES_PER_BIT)
  {
    hide ShiftOnes;
  }

  lemma BitBoundary(s: Link, k: nat)
    requires Started(s) && k < 8
    ensures var shift := ShiftOnes(s.pending, k);
      After(s, k * CYCLES_PER_BIT)
      == s.(counter := if k > 0 then 0 else CYCLES_PER_BIT, bits := 8 - k, shift := shift, sb := shift)
  {
    hide ShiftOnes;
    QuotientIs(k * CYCLES_PER_BIT, k, CYCLES_PER_BIT, 0);
  }

  lemma {:induction false} BitsForm(s: Link, k: nat)
    requires Started(s) && k <= 8
    ensures Spend(s, k * CYCLES_PER_BIT) == After(s, k * CYCLES_PER_BIT)
  {
    hide Started, After;
    if k == 0 {
      AfterNothing(s);
    } else {
      BitsForm(s, k - 1);
      SpendAdds(s, (k - 1) * CYCLES_PER_BIT, CYCLES_PER_BIT);
      NextBit(s, k - 1);
    }
  }

  lemma AfterNothing(s: Link)
    requires Started(s)
    ensures After(s, 0) == s
  {
  }

  /** Part of a bit time only counts down. */
  lemma PartialBit(s: Link, k: nat, r: nat)
    requires Started(s) && k < 8 && r < CYCLES_PER_BIT
    ensures Spend(After(s, k * CYCLES_PER_BIT), r) == After(s, k * CYCLES_PER_BIT + r)
  {
    hide ShiftOnes;
    BitBoundary(s, k);
    QuotientIs(k * CYCLES_PER_BIT + r, k, CYCLES_PER_BIT, r);
  }

  /** After n cycles of a transfer floor(n / 512) bits are out, capped at eight; SB holds the byte
      with that many ones shifted in; at 4096 cycles, and not before, the byte is delivered once,
      the interrupt raised and the start bit cleared. */
  lemma ClosedForm(s: Link, n: nat)
    requires Started(s)
    ensures Advance(s, n) == After(s, n)
  {
    hide Started, After, Spend;
    if n >= TRANSFER_CYCLES {
      BitsForm(s, 8);
      SpendAdds(s, TRANSFER_CYCLES, n - TRANSFER_CYCLES);
      TransferEnds(s, n);
      SpendParked(After(s, TRANSFER_CYCLES), n - TRANSFER_CYCLES);
    } else {
      var k, r := n / CYCLES_PER_BIT, n % CYCLES_PER_BIT;
      assert n == k * CYCLES_PER_BIT + r;
      BitsForm(s, k);
      PartialBit(s, k, r);
      SpendAdds(s, k * CYCLES_PER_BIT, r);
    }
    StartedRuns(s);
  }

  lemma StartedRuns(s: Link)
    requires Started(s)
    ensures s.active && s.internalClock
  {
  }

  lemma TransferEnds(s: Link, n: nat)
    requires n >= TRANSFER_CYCLES
    ensures After(s, n) == After(s, TRANSFER_CYCLES) && !After(s, n).active
  {
  }

  /** Setting the start bit with the internal clock starts a transfer of SB, unless one is running. */
  lemma StartBit(s: Link, value: bv8)
    requires value & 0x81 == 0x81 && !s.active
    ensures Started(WriteControl(s, value)) && WriteControl(s, value).pending == s.sb
  {
    StartBits(value);
  }

  lemma StartBits(value: bv8)
    requires value & 0x81 == 0x81
    ensures value & 0x80 != 0 && value & 0x01 != 0
  {
  }

  /** Setting it again during a transfer disturbs nothing but the choice of clock. */
  lemma RetriggerIgnored(s: Link, value: bv8)
    requires value & 0x80 != 0 && s.active && s.sc & 0x80 != 0
    ensures WriteControl(s, value) == s.(sc := value & 0x81, internalClock := value & 0x01 != 0)
  {
    assert (s.sc & 0x81) & 0x80 == s.sc & 0x80;
  }

  /** A write with the start bit clear stops a transfer for good: no bit moves and no interrupt is raised
      however long the link runs, and SB keeps the bits shifted in so far. */
  lemma StopBit(s: Link, value: bv8, n: nat)
    requires value & 0x80 == 0
    ensures var s' := WriteControl(s, value);
      && s' == s.(active := false, counter := 0, bits := 0, sc := value & 0x01)
      && Advance(s', n) == s'
  {
    ClearBit(value);
  }

  lemma ClearBit(value: bv8)
    requires value & 0x80 == 0
    ensures value & 0x81 == value & 0x01
  {
  }

  /** With the external clock chosen the start bit loads SB but nothing is clocked. */
  lemma ExternalStart(s: Link, value: bv8, n: nat)
    requires value & 0x81 == 0x80 && !s.active
    ensures var s' := WriteControl(s, value);
      && s' == s.(active := true, internalClock := false, counter := 0, bits := 8, pending := s.sb, shift := s.sb,
                  sc := 0x80)
      && Advance(s', n) == s'
  {
    ExternalBits(value);
  }

  lemma ExternalBits(value: bv8)
    requires value & 0x81 == 0x80
    ensures value & 0x80 != 0 && value & 0x01 == 0
  {
  }

  /** Under the external clock nothing moves. */
  lemma ExternalWaits(s: Link, n: nat)
    requires s.active && !s.internalClock
    ensures Advance(s, n) == s
  {
  }

  // ----- The link as the bus keeps it -----

  class SerialLink {
    var active: bool
    var internalClock: bool
    var counter: nat
    var bits: nat
    var shift: bv8
    var pending: bv8
    var sb: bv8
    var sc: bv8
    var flags: bv8
    var out: seq<bv8>

    ghost function Value(): Link
      reads this
    {
      Link(active, internalClock, counter, bits, shift, pending, sb, sc, flags, out)
    }

    constructor ()
      ensures Value() == Link(false, true, 0, 0, 0, 0, 0, 0, 0xE0, [])
    {
      active, internalClock, counter, bits, shift, pending := false, true, 0, 0, 0, 0;
      sb, sc, flags, out := 0, 0, 0xE0, [];
    }

    method Reset()
      modifies this
      ensures Value() == Parked(old(Value()))
    {
      active := false;
      counter := 0;
      bits := 0;
    }

    method WriteSerialControl(value: bv8)
      modifies this
      ensures Value() == WriteControl(old(Value()), value)
    {
      var before := sc & 0x81;
      var raw := value & 0x83;
      sc := raw & 0x81;
      RawBits(value);
      if raw & 0x80 == 0 {
        Reset();
        return;
      }
      var startedNow := before & 0x80 == 0 || !active;
      internalClock := raw & 0x01 != 0;
      if !startedNow && active { return; }
      Reset();
      pending := sb;
      shift := pending;
      bits := 8;
      active := true;
      if internalClock { counter := CYCLES_PER_BIT; }
    }

    method FinishTransfer()
      modifies this
      ensures Value() == Finish(old(Value()))
    {
      Reset();
      FinishBits(sc);
      sc := sc & 0x81 & 0x01 & 0x81;
      flags := ((flags | 0x08) & 0x1F) | 0xE0;
      out := out + [pending];
    }

    method ClockSerialBit()
      modifies this
      ensures Value() == ClockBit(old(Value()))
    {
      hide Finish;
      shift := (shift << 1) | 1;
      bits := if bits > 0 then bits - 1 else 0;
      sb := shift;
      if bits == 0 { FinishTransfer(); }
    }

    method AdvanceSerial(cycles: nat)
      modifies this
      ensures Value() == Advance(old(Value()), cycles)
    {
      hide ClockBit;
      if !active || !internalClock { return; }
      ghost var s := Value();
      var left := cycles;
      while active && left > 0
        invariant 0 <= left <= cycles
        invariant Spend(Value(), left) == Spend(s, cycles)
      {
        if counter == 0 { counter := CYCLES_PER_BIT; }
        if left >= counter {
          left := left - counter;
          counter := 0;
          ClockSerialBit();
        } else {
          counter := counter - left;
          left := 0;
        }
      }
    }
  }

  lemma RawBits(value: bv8)
    ensures (value & 0x83) & 0x81 == value & 0x81
    ensures (value & 0x83) & 0x80 == value & 0x80 && (value & 0x83) & 0x01 == value & 0x01
  {
  }

  lemma FinishBits(sc: bv8)
    ensures sc & 0x81 & 0x01 & 0x81 == sc & 0x01
  {
  }
}
