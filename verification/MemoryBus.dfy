/**
 The scalar bus: the memory map, the registers that latch or mask what is written to them, OAM
 DMA, and the calls through which timers, picture unit and serial link reach the registers.
 */
module MemoryBus {
  import opened RingLayout
  import Serial

  type Word = w: nat | w < 0x1_0000
  type RegIndex = i: nat | i < 0x80

  const JOYP: RegIndex := 0x00
  const SB: RegIndex := 0x01
  const SC: RegIndex := 0x02
  const DIV: RegIndex := 0x04
  const TIMA: RegIndex := 0x05
  const TMA: RegIndex := 0x06
  const TAC: RegIndex := 0x07
  const IF: RegIndex := 0x0F
  const LY: RegIndex := 0x44
  const DMA: RegIndex := 0x46
  const KEY1: RegIndex := 0x4D
  const BOOT: RegIndex := 0x50

  /** The part of the serial link that is not a register. */
  datatype Shifter = Shifter(active: bool, internalClock: bool, counter: nat, bits: nat, shift: bv8, pending: bv8,
                             out: seq<bv8>)

  datatype Joypad = Joypad(select: bv8, buttons: bv8, dpad: bv8)

  /** Register writes the timer has not seen yet. */
  datatype Latches = Latches(divReset: bool, tima: Option<bv8>, tma: Option<bv8>, tac: Option<(bv8, bv8)>)

  datatype Memory = Memory(
    rom: seq<bv8>, bank: nat, boot: Option<seq<bv8>>, bootOn: bool,
    vram: seq<bv8>, wram: seq<bv8>, oam: seq<bv8>, hram: seq<bv8>, io: seq<bv8>, ie: bv8,
    shifter: Shifter, joypad: Joypad, latches: Latches, lyOverride: Option<bv8>)

  predicate Sized(m: Memory) {
    |m.vram| == 0x2000 && |m.wram| == 0x2000 && |m.oam| == 0xA0 && |m.hram| == 0x7F && |m.io| == 0x80
  }

  type Bus = m: Memory | Sized(m) witness Fresh([], None)

  function Fresh(rom: seq<bv8>, boot: Option<seq<bv8>>): (m: Memory)
    ensures Sized(m)
  {
    Memory(rom, BankFor(|rom|, 1), boot, boot.Some?,
           seq(0x2000, _ => 0), seq(0x2000, _ => 0), seq(0xA0, _ => 0), seq(0x7F, _ => 0),
           seq(0x80, _ => 0)[0x0F := 0xE0][0x4D := 0xFF], 0,
           Shifter(false, true, 0, 0, 0, 0, []), Joypad(0x30, 0x0F, 0x0F), Latches(false, None, None, None), None)
  }

  // ----- Registers -----

  function ReadReg(m: Bus, idx: RegIndex): bv8 {
    if idx == SC then (m.io[SC] & 0x81) | 0x7E
    else if idx == TAC then m.io[TAC] | 0xF8
    else if idx == KEY1 then 0xFF
    else m.io[idx]
  }

  function WriteReg(m: Bus, idx: RegIndex, value: bv8): Bus {
    m.(io := m.io[idx := if idx == SC then value & 0x81 else if idx == KEY1 then 0xFF else value])
  }

  function WriteIf(m: Bus, value: bv8): Bus {
    m.(io := m.io[IF := (value & 0x1F) | 0xE0])
  }

  // ----- Cartridge -----

  /** The bank a write selects: wrapped to what the cartridge has, and never 0 when it has more. */
  function BankFor(size: nat, bank: nat): (b: nat)
    ensures var total := if size == 0 then 1 else (size + 0x3FFF) / 0x4000;
      b < total && (total > 1 ==> b > 0)
  {
    var total := if size == 0 then 1 else (size + 0x3FFF) / 0x4000;
    var b := bank % total;
    if total > 1 && b == 0 then 1 else b
  }

  function RomByte(rom: seq<bv8>, at: nat): bv8 {
    if at < |rom| then rom[at] else 0xFF
  }

  predicate BootCovers(m: Bus, addr: Word) {
    m.bootOn && m.boot.Some? && addr < |m.boot.value|
  }

  // ----- Serial -----

  function LinkOf(m: Bus): Serial.Link {
    var s := m.shifter;
    Serial.Link(s.active, s.internalClock, s.counter, s.bits, s.shift, s.pending, m.io[SB], m.io[SC], m.io[IF], s.out)
  }

  function WithLink(m: Bus, l: Serial.Link): Bus {
    m.(shifter := Shifter(l.active, l.internalClock, l.counter, l.bits, l.shift, l.pending, l.out),
       io := m.io[SB := l.sb][SC := l.sc][IF := l.flags])
  }

  // ----- The memory map -----

  function ReadByte(m: Bus, addr: Word): bv8 {
    if addr < 0x4000 then
      if BootCovers(m, addr) then m.boot.value[addr] else RomByte(m.rom, addr)
    else if addr < 0x8000 then RomByte(m.rom, m.bank * 0x4000 + (addr - 0x4000))
    else if addr < 0xA000 then m.vram[addr - 0x8000]
    else if addr < 0xC000 then 0xFF
    else if addr < 0xE000 then m.wram[addr - 0xC000]
    else if addr < 0xFE00 then m.wram[addr - 0xE000]
    else if addr < 0xFEA0 then m.oam[addr - 0xFE00]
    else if addr < 0xFF00 then 0xFF
    else if addr < 0xFF80 then ReadHigh(m, addr - 0xFF00)
    else if addr < 0xFFFF then m.hram[addr - 0xFF80]
    else m.ie
  }

  function ReadHigh(m: Bus, idx: RegIndex): bv8 {
    if idx == JOYP then
      var lo0: bv8 := 0x0F;
      var lo1 := if m.joypad.select & 0x10 == 0 then lo0 & m.joypad.dpad else lo0;
      var lo2 := if m.joypad.select & 0x20 == 0 then lo1 & m.joypad.buttons else lo1;
      0xC0 | m.joypad.select | (!lo2 & 0x0F)
    else if idx == IF then m.io[IF]
    else if idx == LY && m.lyOverride.Some? then m.lyOverride.value
    else if idx == BOOT then (if m.bootOn then 0x00 else 0x01)
    else ReadReg(m, idx)
  }

  function WriteByte(m: Bus, addr: Word, value: bv8): Bus {
    if addr < 0x2000 then m
    else if addr < 0x4000 then m.(bank := BankFor(|m.rom|, (value & 0x1F) as nat))
    else if addr < 0x8000 then m
    else if addr < 0xA000 then m.(vram := m.vram[addr - 0x8000 := value])
    else if addr < 0xC000 then m
    else if addr < 0xE000 then m.(wram := m.wram[addr - 0xC000 := value])
    else if addr < 0xFE00 then m.(wram := m.wram[addr - 0xE000 := value])
    else if addr < 0xFEA0 then m.(oam := m.oam[addr - 0xFE00 := value])
    else if addr < 0xFF00 then m
    else if addr < 0xFF80 then WriteHigh(m, addr - 0xFF00, value)
    else if addr < 0xFFFF then m.(hram := m.hram[addr - 0xFF80 := value])
    else m.(ie := value)
  }

  function WriteHigh(m: Bus, idx: RegIndex, value: bv8): Bus {
    if idx == DMA then Transfer(m, (value as nat) * 0x100, 0)
    else if idx == BOOT then (if value & 0x01 != 0 then m.(bootOn := false) else m)
    else if idx == JOYP then
      var select := value & 0x30;
      WriteReg(m.(joypad := m.joypad.(select := select)), JOYP, (ReadReg(m, JOYP) & 0xCF) | select)
    else if idx == DIV then m.(io := m.io[DIV := 0], latches := m.latches.(divReset := true))
    else if idx == TIMA then m.(io := m.io[TIMA := value], latches := m.latches.(tima := Some(value)))
    else if idx == TMA then m.(io := m.io[TMA := value], latches := m.latches.(tma := Some(value)))
    else if idx == TAC then
      m.(io := m.io[TAC := value & 0x07],
         latches := m.latches.(tac := Some((m.io[TAC] | 0xF8, value & 0x07))))
    else if idx == LY then WriteReg(m, LY, 0)
    else if idx == SC then WithLink(m, Serial.WriteControl(LinkOf(m), value))
    else if idx == IF then WriteIf(m, value)
    else WriteReg(m, idx, value)
  }

  /** The DMA loop: 160 bytes read through the map and stored one after another. */
  function Transfer(m: Bus, base: nat, offset: nat): Bus
    decreases 0xA0 - offset
  {
    if offset >= 0xA0 then m
    else
      var byte := ReadByte(m, (base + offset) % 0x1_0000);
      Transfer(m.(oam := m.oam[offset := byte]), base, offset + 1)
  }

  /** Although the loop reads memory it is writing, it copies the memory as it was: even a source
      inside OAM reads each byte before it changes. */
  lemma {:induction false} TransferCopies(m0: Bus, m: Bus, base: nat, offset: nat)
    requires base % 0x100 == 0 && offset <= 0xA0
    requires m == m0.(oam := m.oam)
    requires forall i :: 0 <= i < 0xA0 ==>
      m.oam[i] == (if i < offset then ReadByte(m0, (base + i) % 0x1_0000) else m0.oam[i])
    ensures var m' := Transfer(m, base, offset);
      && m' == m0.(oam := m'.oam)
      && forall i :: 0 <= i < 0xA0 ==> m'.oam[i] == ReadByte(m0, (base + i) % 0x1_0000)
    decreases 0xA0 - offset
  {
    hide ReadByte;
    if offset < 0xA0 {
      ReadsPastWrites(m0, m, base, offset);
      var byte := ReadByte(m, (base + offset) % 0x1_0000);
      TransferCopies(m0, m.(oam := m.oam[offset := byte]), base, offset + 1);
    }
  }

  lemma ReadsPastWrites(m0: Bus, m: Bus, base: nat, offset: nat)
    requires base % 0x100 == 0 && offset < 0xA0
    requires m == m0.(oam := m.oam) && m.oam[offset] == m0.oam[offset]
    ensures ReadByte(m, (base + offset) % 0x1_0000) == ReadByte(m0, (base + offset) % 0x1_0000)
  {
    hide ReadHigh, RomByte;
    var addr := (base + offset) % 0x1_0000;
    assert addr % 0x100 == offset;
    if 0xFE00 <= addr < 0xFEA0 {
      assert addr - 0xFE00 == offset;
    }
    assert 0xFF00 <= addr < 0xFF80 ==> ReadHigh(m, addr - 0xFF00) == ReadHigh(m0, addr - 0xFF00) by {
      if 0xFF00 <= addr < 0xFF80 { HighIgnoresOam(m0, m, addr - 0xFF00); }
    }
  }

  lemma HighIgnoresOam(m0: Bus, m: Bus, idx: RegIndex)
    requires m == m0.(oam := m.oam)
    ensures ReadHigh(m, idx) == ReadHigh(m0, idx)
  {
  }

  lemma DmaCopies(m: Bus, value: bv8)
    ensures var m' := WriteByte(m, 0xFF46, value);
      && m' == m.(oam := m'.oam)
      && forall i :: 0 <= i < 0xA0 ==> m'.oam[i] == ReadByte(m, (value as nat * 0x100 + i) % 0x1_0000)
  {
    hide ReadByte, WriteByte, Transfer;
    TransferWrite(m, value);
    TransferCopies(m, m, value as nat * 0x100, 0);
  }

  lemma TransferWrite(m: Bus, value: bv8)
    ensures WriteByte(m, 0xFF46, value) == Transfer(m, value as nat * 0x100, 0)
  {
    hide Transfer;
  }

  /** Work RAM answers at two addresses. */
  lemma EchoMirrors(m: Bus, addr: Word, value: bv8)
    requires 0xC000 <= addr < 0xDE00
    ensures ReadByte(m, addr + 0x2000) == ReadByte(m, addr)
    ensures WriteByte(m, addr + 0x2000, value) == WriteByte(m, addr, value)
    ensures ReadByte(WriteByte(m, addr, value), addr + 0x2000) == value
  {
    hide ReadHigh, WriteHigh, RomByte, BankFor;
  }

  /** Whatever the CPU writes, wherever: IF keeps bits 5 to 7 set unless its cell is written around
      the masking register write, which no address does. */
  predicate FlagsHigh(m: Bus) {
    m.io[IF] & 0xE0 == 0xE0
  }

  lemma WritesKeepFlagsHigh(m: Bus, addr: Word, value: bv8)
    requires FlagsHigh(m)
    ensures FlagsHigh(WriteByte(m, addr, value))
  {
    hide Transfer, BankFor, WriteHigh, FlagsHigh;
    if 0xFF00 <= addr < 0xFF80 {
      HighWritesKeepFlagsHigh(m, addr - 0xFF00, value);
    }
    FlagsFromIo(m, WriteByte(m, addr, value));
  }

  lemma FlagsFromIo(m: Bus, m': Bus)
    ensures m.io == m'.io && FlagsHigh(m) ==> FlagsHigh(m')
  {
  }

  lemma HighWritesKeepFlagsHigh(m: Bus, idx: RegIndex, value: bv8)
    requires FlagsHigh(m)
    ensures FlagsHigh(WriteHigh(m, idx, value))
  {
    hide Transfer, ReadReg, Serial.WriteControl;
    if idx == DMA {
      DmaKeepsIo(m, value as nat * 0x100, 0);
    } else if idx == SC {
      ControlKeepsFlags(LinkOf(m), value);
    } else if idx == IF {
      MaskedFlags(value);
    }
  }

  lemma {:induction false} DmaKeepsIo(m: Bus, base: nat, offset: nat)
    ensures Transfer(m, base, offset).io == m.io
    decreases 0xA0 - offset
  {
    hide ReadByte;
    if offset < 0xA0 {
      var byte := ReadByte(m, (base + offset) % 0x1_0000);
      DmaKeepsIo(m.(oam := m.oam[offset := byte]), base, offset + 1);
    }
  }

  lemma ControlKeepsFlags(l: Serial.Link, value: bv8)
    ensures Serial.WriteControl(l, value).flags == l.flags
  {
  }

  lemma MaskedFlags(value: bv8)
    ensures ((value & 0x1F) | 0xE0) & 0xE0 == 0xE0
  {
  }

  // ----- Calls from the peripherals -----

  /** What timers, picture unit, serial clock and interrupt logic ask of the bus. */
  datatype Call =
    | GetReg(idx: RegIndex) | PutReg(idx: RegIndex, value: bv8)
    | GetDiv | PutDiv(value: bv8) | GetTima | PutTima(value: bv8) | GetTma | GetTac
    | GetIf | PutIf(value: bv8) | GetIe
    | TakeDivReset | TakeTimaWrite | TakeTmaWrite | TakeTacWrite
    | StepSerial(cycles: nat)

  datatype Answer =
    | Nothing | Byte(value: bv8) | Flag(on: bool)
    | MaybeByte(byte: Option<bv8>) | MaybePair(pair: Option<(bv8, bv8)>)

  function Serve(m: Bus, call: Call): (Bus, Answer) {
    match call
    case GetReg(idx) => (m, Byte(ReadReg(m, idx)))
    case PutReg(idx, value) => (WriteReg(m, idx, value), Nothing)
    case GetDiv => (m, Byte(m.io[DIV]))
    case PutDiv(value) => (m.(io := m.io[DIV := value]), Nothing)
    case GetTima => (m, Byte(m.io[TIMA]))
    case PutTima(value) => (m.(io := m.io[TIMA := value]), Nothing)
    case GetTma => (m, Byte(m.io[TMA]))
    case GetTac => (m, Byte(m.io[TAC] | 0xF8))
    case GetIf => (m, Byte(m.io[IF]))
    case PutIf(value) => (WriteIf(m, value), Nothing)
    case GetIe => (m, Byte(m.ie))
    case TakeDivReset => (m.(latches := m.latches.(divReset := false)), Flag(m.latches.divReset))
    case TakeTimaWrite => (m.(latches := m.latches.(tima := None)), MaybeByte(m.latches.tima))
    case TakeTmaWrite => (m.(latches := m.latches.(tma := None)), MaybeByte(m.latches.tma))
    case TakeTacWrite => (m.(latches := m.latches.(tac := None)), MaybePair(m.latches.tac))
    case StepSerial(cycles) => (WithLink(m, Serial.Advance(LinkOf(m), cycles)), Nothing)
  }

  /** No peripheral call clears the upper flag bits either, short of a raw write to the cell, which
      the picture unit, the only one to write raw registers, makes to STAT and LY alone. */
  lemma CallsKeepFlagsHigh(m: Bus, call: Call)
    requires FlagsHigh(m) && (call.PutReg? ==> call.idx != IF)
    ensures FlagsHigh(Serve(m, call).0)
  {
    hide Serial.Advance, ReadReg, FlagsHigh;
    match call {
      case PutReg(idx, value) => FlagsFromCell(m, Serve(m, call).0);
      case PutIf(value) => MaskedFlags(value); MaskedIsHigh(m, value);
      case StepSerial(cycles) => AdvanceKeepsHigh(LinkOf(m), cycles); LinkIsHigh(m, Serial.Advance(LinkOf(m), cycles));
      case _ => FlagsFromCell(m, Serve(m, call).0);
    }
  }

  lemma FlagsFromCell(m: Bus, m': Bus)
    ensures m.io[IF] == m'.io[IF] && FlagsHigh(m) ==> FlagsHigh(m')
  {
  }

  lemma MaskedIsHigh(m: Bus, value: bv8)
    ensures FlagsHigh(WriteIf(m, value))
  {
    MaskedFlags(value);
  }

  lemma LinkIsHigh(m: Bus, l: Serial.Link)
    requires FlagsHigh(m) && (LinkOf(m).flags & 0xE0 == 0xE0 ==> l.flags & 0xE0 == 0xE0)
    ensures FlagsHigh(WithLink(m, l))
  {
  }

  lemma AdvanceKeepsHigh(l: Serial.Link, cycles: nat)
    ensures l.flags & 0xE0 == 0xE0 ==> Serial.Advance(l, cycles).flags & 0xE0 == 0xE0
  {
    hide Serial.Spend;
    SpendKeepsHigh(l, cycles);
  }

  lemma {:induction false} SpendKeepsHigh(l: Serial.Link, n: nat)
    ensures l.flags & 0xE0 == 0xE0 ==> Serial.Spend(l, n).flags & 0xE0 == 0xE0
    decreases n
  {
    hide Serial.ClockBit, Serial.Spend, Serial.Due;
    if l.active && n > 0 {
      Serial.SpendIs(l, n);
      if n >= Serial.Due(l) {
        ClockKeepsHigh(l.(counter := 0));
        SpendKeepsHigh(Serial.ClockBit(l.(counter := 0)), n - Serial.Due(l));
      }
    } else if n == 0 {
      Serial.SpendNothing(l);
    } else {
      Serial.SpendParked(l, n);
    }
  }

  lemma ClockKeepsHigh(l: Serial.Link)
    ensures l.flags & 0xE0 == 0xE0 ==> Serial.ClockBit(l).flags & 0xE0 == 0xE0
  {
    MaskedFlags(l.flags | 0x08);
  }
}
