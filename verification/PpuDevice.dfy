/**
 The picture unit as the emulator keeps it: counters updated in place by an event loop over a
 shared register block. The loop computes the unit's step function.
 */
module PpuDevice {
  import P = Ppu

  /** The registers the unit reads and writes. */
  class PpuBus {
    var lcdc: bv8
    var stat: bv8
    var ly: bv8
    var lyc: bv8
    var flags: bv8
    ghost var frames: nat
    ghost var vblanks: nat

    ghost function Io(): P.Io
      reads this
    {
      P.Io(lcdc, stat, ly, lyc, flags, frames, vblanks)
    }

    constructor ()
      ensures Io() == P.Io(0, 0, 0, 0, 0xE0, 0, 0)
    {
      lcdc, stat, ly, lyc, flags, frames, vblanks := 0, 0, 0, 0, 0xE0, 0, 0;
    }

    method RaiseInterrupt(bit: bv8)
      modifies this
      ensures Io() == P.Raise(old(Io()), bit)
    {
      var value := flags | bit;
      flags := (value & 0x1F) | 0xE0;
    }
  }

  class PpuUnit {
    var dotInLine: nat
    var ly: nat
    var mode: bv8
    var lycEqual: bool
    var frameReady: bool
    var lcdWasOn: bool

    ghost function Value(): P.Unit
      reads this
    {
      P.Unit(dotInLine, ly, mode, lycEqual, frameReady, lcdWasOn)
    }

    ghost function System(bus: PpuBus): P.Sys
      reads this, bus
    {
      P.Sys(Value(), bus.Io())
    }

    constructor ()
      ensures Value() == P.Idle() && P.Good(Value())
    {
      dotInLine, ly, mode, lycEqual, frameReady, lcdWasOn := 0, 0, 0, false, false, false;
    }

    method ClearFrameReady()
      modifies this
      ensures Value() == old(Value()).(frameReady := false)
    {
      frameReady := false;
    }

    /** STAT with the mode and the comparison written into its lower bits. */
    method ShowStatus(bus: PpuBus, shown: bv8)
      modifies bus
      ensures bus.Io() == old(bus.Io()).(stat := P.StatWith(old(bus.stat), shown, lycEqual))
    {
      var after := (bus.stat & 0xF8) | (shown & 0x03);
      if lycEqual { after := after | 0x04; }
      bus.stat := after;
    }

    method RefreshCoincidence(bus: PpuBus)
      modifies this, bus
      ensures System(bus) == P.Refresh(old(System(bus)))
    {
      hide P.StatWith, P.LineByte;
      var before := bus.stat;
      var equal := P.LineByte(ly) == bus.lyc;
      var wasEqual := lycEqual;
      lycEqual := equal;
      ShowStatus(bus, mode);
      if !wasEqual && equal && before & 0x40 != 0 {
        bus.RaiseInterrupt(0x02);
      }
    }

    method SetMode(bus: PpuBus, newMode: bv8)
      modifies this, bus
      ensures System(bus) == P.SetMode(old(System(bus)), newMode)
    {
      hide P.StatWith;
      if mode == newMode { return; }
      var before := bus.stat;
      ShowStatus(bus, newMode);
      mode := newMode;
      var enabled := false;
      if newMode == 0 { enabled := before & 0x08 != 0; }
      if newMode == 1 { enabled := before & 0x10 != 0; }
      if newMode == 2 { enabled := before & 0x20 != 0; }
      if enabled { bus.RaiseInterrupt(0x02); }
    }

    method StartLcd(bus: PpuBus)
      modifies this, bus
      ensures System(bus) == P.StartLcd(old(System(bus)))
    {
      hide P.SetMode;
      lcdWasOn, dotInLine, ly, mode, lycEqual, frameReady := true, 0, 0, 0, false, false;
      bus.ly := P.LineByte(ly);
      SetMode(bus, 2);
    }

    method ForceLcdOff(bus: PpuBus)
      modifies this, bus
      ensures System(bus) == P.ForceOff(old(System(bus)))
    {
      lcdWasOn, dotInLine, mode, frameReady, ly := false, 0, 0, false, 0;
      bus.ly := 0;
      lycEqual := bus.lyc == 0;
      ShowStatus(bus, 0);
    }

    method AdvanceLine(bus: PpuBus)
      modifies this, bus
      ensures System(bus) == P.AdvanceLine(old(System(bus)))
    {
      hide P.Refresh, P.BeginLine, P.LineByte;
      ly := (ly + 1) % 0x100;
      if ly >= P.TOTAL_LINES { ly := 0; }
      bus.ly := P.LineByte(ly);
      RefreshCoincidence(bus);
      BeginLine(bus);
    }

    method BeginLine(bus: PpuBus)
      modifies this, bus
      ensures System(bus) == P.BeginLine(old(System(bus)))
    {
      hide P.SetMode;
      if ly == 0 {
        frameReady := true;
        bus.frames := bus.frames + 1;
        SetMode(bus, 2);
      } else if ly < P.VBLANK_START_LINE {
        SetMode(bus, 2);
      } else if ly == P.VBLANK_START_LINE {
        bus.RaiseInterrupt(0x01);
        bus.vblanks := bus.vblanks + 1;
        SetMode(bus, 1);
      }
    }

    method HandleEvent(bus: PpuBus)
      modifies this, bus
      ensures System(bus) == P.HandleEvent(old(System(bus)))
    {
      hide P.SetMode, P.AdvanceLine;
      if mode == 2 {
        SetMode(bus, 3);
      } else if mode == 3 {
        SetMode(bus, 0);
      } else if mode == 0 || mode == 1 {
        if dotInLine >= P.DOTS_PER_LINE {
          dotInLine := dotInLine - P.DOTS_PER_LINE;
        } else {
          dotInLine := 0;
        }
        AdvanceLine(bus);
      }
    }

    method CyclesUntilNextEvent() returns (cycles: nat)
      requires P.Sane(Value())
      ensures cycles == P.UntilNext(Value())
    {
      if mode == 0 || mode == 1 {
        cycles := P.DOTS_PER_LINE - dotInLine;
      } else if mode == 2 {
        cycles := P.MODE2_CYCLES - dotInLine;
      } else {
        cycles := P.MODE2_CYCLES + P.MODE3_CYCLES - dotInLine;
      }
    }

    /** Advances the unit: off with the LCD off, otherwise from event to event. */
    method Step(cycles: nat, bus: PpuBus)
      requires P.Sane(Value())
      modifies this, bus
      ensures System(bus) == P.Step(old(System(bus)), cycles)
      ensures P.Sane(Value())
    {
      hide P.Refresh, P.SetMode, P.HandleEvent, P.ForceOff, P.StartLcd, P.Leap, P.Sane, P.UntilNext, P.LineByte;
      ghost var s := System(bus);
      if cycles == 0 { return; }
      if bus.lcdc & 0x80 == 0 {
        ForceLcdOff(bus);
        OffIsSane(s);
        return;
      }
      if !lcdWasOn {
        StartLcd(bus);
        P.StartKeeps(s);
      }
      var left := cycles;
      while left > 0
        invariant 0 <= left <= cycles && P.Sane(Value())
        invariant P.Run(System(bus), left) == P.Step(s, cycles)
        decreases left, if P.UntilNext(Value()) == 0 then 1 else 0
      {
        if bus.lcdc & 0x80 == 0 {
          ForceLcdOff(bus);
          return;
        }
        left := LoopBody(bus, left);
      }
    }

    /** One turn of the loop: the cycles left after it. */
    method LoopBody(bus: PpuBus, cycles: nat) returns (left: nat)
      requires P.Sane(Value()) && cycles > 0
      modifies this, bus
      ensures (System(bus), left) == P.Leap(old(System(bus)), cycles)
      ensures P.Sane(Value())
    {
      hide P.Refresh, P.HandleEvent, P.LineByte;
      ghost var s := System(bus);
      RefreshCoincidence(bus);
      P.RefreshKeeps(s);
      var remaining := CyclesUntilNextEvent();
      if remaining == 0 {
        HandleEvent(bus);
        return cycles;
      }
      var step := if remaining < cycles then remaining else cycles;
      dotInLine := dotInLine + step;
      left := cycles - step;
      if step == remaining {
        HandleEvent(bus);
      }
    }
  }

  /** A run of steps, register writes and frames taken. */
  method Replay(unit: PpuUnit, bus: PpuBus, acts: seq<P.Act>)
    requires P.Good(unit.Value())
    modifies unit, bus
    ensures P.Good(unit.Value()) && unit.System(bus) == P.Play(old(unit.System(bus)), acts)
  {
    hide P.Step, P.Good;
    ghost var s := unit.System(bus);
    var i := 0;
    assert acts[0..] == acts;
    while i < |acts|
      invariant 0 <= i <= |acts| && P.Good(unit.Value())
      invariant P.Play(unit.System(bus), acts[i..]) == P.Play(s, acts)
    {
      ghost var before := unit.System(bus);
      assert acts[i..][0] == acts[i] && acts[i..][1..] == acts[i + 1..];
      match acts[i] {
        case Writes(io) =>
          bus.lcdc, bus.stat, bus.ly, bus.lyc, bus.flags := io.lcdc, io.stat, io.ly, io.lyc, io.flags;
          bus.frames, bus.vblanks := io.frames, io.vblanks;
        case TakeFrame =>
          FrameTaken(before.p);
          unit.ClearFrameReady();
        case Cycles(n) =>
          P.StepStaysGood(before, n);
          unit.Step(n, bus);
      }
      i := i + 1;
    }
  }

  lemma FrameTaken(p: P.Unit)
    requires P.Good(p)
    ensures P.Good(p.(frameReady := false))
  {
  }

  lemma OffIsSane(s: P.Sys)
    ensures P.Sane(P.ForceOff(s).p)
  {
    hide P.StatWith;
  }
}
