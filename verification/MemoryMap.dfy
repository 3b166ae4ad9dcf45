/**
 The memory map as the processor meets it: which addresses keep what is written to them, what the
 others answer, the selected cartridge bank, and what registers show of a value written to them.
 */
module MemoryMap {
  import opened RingLayout
  import opened MemoryBus
  import Serial

  // ----- Cells -----

  /** Video, work, object and high memory and the interrupt enable keep what is written. */
  predicate Keeps(addr: Word) {
    || 0x8000 <= addr < 0xA000 || 0xC000 <= addr < 0xFEA0 || 0xFF80 <= addr
  }

  /** The cell behind an address: 0xE000 to 0xFDFF are work memory again. */
  function Cell(addr: Word): Word {
    if 0xE000 <= addr < 0xFE00 then addr - 0x2000 else addr
  }

  /** A write to memory is read back at every address of its cell, and no other address of the whole map
      reads differently for it. */
  lemma CellsKeep(m: Bus, a: Word, value: bv8, b: Word)
    requires Keeps(a)
    ensures ReadByte(WriteByte(m, a, value), b) == if Cell(a) == Cell(b) then value else ReadByte(m, b)
  {
    hide ReadByte, WriteByte;
    if Keeps(b) {
      AtCell(m, a, value);
      AtCell(m, b, value);
      AtCell(WriteByte(m, a, value), b, value);
      CellKeeps(m, Cell(a), value, Cell(b));
    } else {
      KeepsRegisters(m, a, value);
      RegistersSame(m, WriteByte(m, a, value), b);
    }
  }

  lemma AtCell(m: Bus, a: Word, value: bv8)
    ensures ReadByte(m, Cell(a)) == ReadByte(m, a) && WriteByte(m, Cell(a), value) == WriteByte(m, a, value)
  {
    hide ReadHigh, RomByte, WriteHigh, BankFor;
  }

  lemma CellKeeps(m: Bus, a: Word, value: bv8, b: Word)
    requires Keeps(a) && Keeps(b) && Cell(a) == a && Cell(b) == b
    ensures ReadByte(WriteByte(m, a, value), b) == if a == b then value else ReadByte(m, b)
  {
    hide ReadHigh, RomByte, WriteHigh, BankFor;
    assert !(0xE000 <= a < 0xFE00) && !(0xE000 <= b < 0xFE00);
  }

  lemma RegistersSame(m: Bus, m': Bus, b: Word)
    requires !Keeps(b)
    requires m' == m.(vram := m'.vram, wram := m'.wram, oam := m'.oam, hram := m'.hram, ie := m'.ie)
    ensures ReadByte(m', b) == ReadByte(m, b)
  {
    hide ReadHigh, RomByte;
    if 0xFF00 <= b < 0xFF80 { HighSame(m, m', b - 0xFF00); }
  }

  lemma KeepsRegisters(m: Bus, a: Word, value: bv8)
    requires Keeps(a)
    ensures var m' := WriteByte(m, a, value);
      m' == m.(vram := m'.vram, wram := m'.wram, oam := m'.oam, hram := m'.hram, ie := m'.ie)
  {
    hide WriteHigh;
  }

  lemma HighSame(m: Bus, m': Bus, idx: RegIndex)
    requires m' == m.(vram := m'.vram, wram := m'.wram, oam := m'.oam, hram := m'.hram, ie := m'.ie)
    ensures ReadHigh(m', idx) == ReadHigh(m, idx)
  {
  }

  /** Cartridge memory below 0x2000 and above 0x4000, external memory and the gap after object memory
      ignore writes; the latter two read 0xFF. */
  lemma WritesIgnored(m: Bus, addr: Word, value: bv8)
    requires addr < 0x2000 || 0x4000 <= addr < 0x8000 || 0xA000 <= addr < 0xC000 || 0xFEA0 <= addr < 0xFF00
    ensures WriteByte(m, addr, value) == m
    ensures addr >= 0xA000 ==> ReadByte(m, addr) == 0xFF
  {
  }

  // ----- Cartridge -----

  /** Banks of a cartridge: at least one, the last perhaps in part. */
  function Banks(size: nat): (n: nat)
    ensures n > 0
  {
    if size == 0 then 1 else (size + 0x3FFF) / 0x4000
  }

  /** A write to 0x2000 - 0x3FFF selects by its five low bits, around the banks there are, and bank 0
      stands for 1; the upper window then reads that bank and the lower one bank 0 as before. */
  lemma BankWindow(m: Bus, addr: Word, value: bv8, k: nat)
    requires 0x2000 <= addr < 0x4000 && k < 0x4000
    ensures var m' := WriteByte(m, addr, value);
      var chosen := (value & 0x1F) as nat % Banks(|m.rom|);
      var at := (if chosen == 0 && Banks(|m.rom|) > 1 then 1 else chosen) * 0x4000 + k;
      && m' == m.(bank := m'.bank)
      && ReadByte(m', 0x4000 + k) == (if at < |m.rom| then m.rom[at] else 0xFF)
      && ReadByte(m', k) == ReadByte(m, k)
  {
    var m' := WriteByte(m, addr, value);
    assert ReadByte(m', 0x4000 + k) == RomByte(m.rom, m'.bank * 0x4000 + k);
  }

  /** The boot program covers the start of the cartridge until an odd byte is written to 0xFF50, and
      nothing brings it back. */
  lemma BootUntilWritten(m: Bus, k: nat)
    requires k < 0x4000
    ensures ReadByte(m, k) == if m.bootOn && m.boot.Some? && k < |m.boot.value| then m.boot.value[k]
                              else if k < |m.rom| then m.rom[k] else 0xFF
    ensures ReadByte(m, 0xFF50) == if m.bootOn then 0 else 1
  {
  }

  lemma BootGoes(m: Bus, addr: Word, value: bv8)
    ensures WriteByte(m, addr, value).bootOn == (m.bootOn && !(addr == 0xFF50 && value & 0x01 == 1))
    ensures WriteByte(m, addr, value).boot == m.boot && WriteByte(m, addr, value).rom == m.rom
  {
    hide BankFor, Transfer, Serial.WriteControl, ReadReg;
    OddBit(value);
    if addr == 0xFF46 { TransferKeeps(m, value as nat * 0x100, 0); }
  }

  lemma OddBit(value: bv8)
    ensures value & 0x01 == 1 <==> value & 0x01 != 0
  {
  }

  lemma {:induction false} TransferKeeps(m: Bus, base: nat, offset: nat)
    ensures var m' := Transfer(m, base, offset); m' == m.(oam := m'.oam)
    decreases 0xA0 - offset
  {
    hide ReadByte;
    if offset < 0xA0 {
      var byte := ReadByte(m, (base + offset) % 0x1_0000);
      TransferKeeps(m.(oam := m.oam[offset := byte]), base, offset + 1);
    }
  }

  // ----- Registers -----

  /** What a register shows right after a byte is written to it: the line number and the divider read
      zero, the interrupt flags, the serial control and the timer control read their unused bits as ones,
      the speed register reads 0xFF, and every plain register reads what was written. */
  lemma RegisterShows(m: Bus, addr: Word, value: bv8)
    requires 0xFF00 <= addr < 0xFF80 && addr !in {0xFF00, 0xFF46, 0xFF50}
    requires addr == 0xFF44 ==> m.lyOverride.None?
    ensures ReadByte(WriteByte(m, addr, value), addr)
         == if addr == 0xFF04 || addr == 0xFF44 then 0x00
            else if addr == 0xFF02 then (value & 0x81) | 0x7E
            else if addr == 0xFF07 then (value & 0x07) | 0xF8
            else if addr == 0xFF0F then (value & 0x1F) | 0xE0
            else if addr == 0xFF4D then 0xFF
            else value
  {
    hide ReadByte, WriteByte, ReadHigh, WriteHigh;
    HighAccess(m, addr - 0xFF00, value);
    HighAccess(WriteHigh(m, addr - 0xFF00, value), addr - 0xFF00, value);
    if addr == 0xFF02 { ControlShows(m, value); } else { HighShows(m, addr - 0xFF00, value); }
  }

  lemma HighShows(m: Bus, idx: RegIndex, value: bv8)
    requires idx !in {0x00, 0x02, 0x46, 0x50} && (idx == 0x44 ==> m.lyOverride.None?)
    ensures ReadHigh(WriteHigh(m, idx, value), idx)
         == if idx == 0x04 || idx == 0x44 then 0x00
            else if idx == 0x07 then (value & 0x07) | 0xF8
            else if idx == 0x0F then (value & 0x1F) | 0xE0
            else if idx == 0x4D then 0xFF
            else value
  {
    hide Transfer, Serial.WriteControl;
  }

  lemma HighAccess(m: Bus, idx: RegIndex, value: bv8)
    ensures ReadByte(m, 0xFF00 + idx) == ReadHigh(m, idx)
    ensures WriteByte(m, 0xFF00 + idx, value) == WriteHigh(m, idx, value)
  {
    hide ReadHigh, WriteHigh;
  }

  lemma ControlShows(m: Bus, value: bv8)
    ensures ReadHigh(WriteHigh(m, SC, value), SC) == (value & 0x81) | 0x7E
  {
    hide Serial.WriteControl;
    ControlKept(LinkOf(m), value);
    Masked(value);
  }

  lemma ControlKept(l: Serial.Link, value: bv8)
    ensures Serial.WriteControl(l, value).sc == value & 0x81
  {
  }

  lemma Masked(value: bv8)
    ensures (value & 0x81) & 0x81 == value & 0x81
  {
  }

  /** The joypad register: the two bits that were selected, the upper two set, and below them the keys of
      every selected half, a key pressed in both read once. A half is selected by its bit being clear. */
  lemma JoypadShows(m: Bus, value: bv8, key: nat)
    requires key < 4
    ensures var m' := WriteByte(m, 0xFF00, value);
      var r := ReadByte(m', 0xFF00);
      && r & 0xF0 == 0xC0 | (value & 0x30)
      && (r & (1 << key) != 0 <==>
            || (value & 0x10 == 0 && m.joypad.dpad & (1 << key) == 0)
            || (value & 0x20 == 0 && m.joypad.buttons & (1 << key) == 0))
      && m'.joypad == m.joypad.(select := value & 0x30)
  {
    hide ReadReg;
    KeyBits(value, m.joypad.dpad, m.joypad.buttons, key);
  }

  lemma KeyBits(value: bv8, dpad: bv8, buttons: bv8, key: nat)
    requires key < 4
    ensures var select := value & 0x30;
      var lo0: bv8 := 0x0F;
      var lo1 := if select & 0x10 == 0 then lo0 & dpad else lo0;
      var lo2 := if select & 0x20 == 0 then lo1 & buttons else lo1;
      var r := 0xC0 | select | (!lo2 & 0x0F);
      && r & 0xF0 == 0xC0 | (value & 0x30)
      && (r & (1 << key) != 0 <==>
            || (value & 0x10 == 0 && dpad & (1 << key) == 0)
            || (value & 0x20 == 0 && buttons & (1 << key) == 0))
  {
  }

  /** A new bus: registers zero but for IF and the speed register, no write latched, no transfer running
      and no key pressed; */
  lemma PowerOnState(rom: seq<bv8>, boot: Option<seq<bv8>>)
    ensures var m := Fresh(rom, boot);
      && (forall idx: RegIndex :: m.io[idx] == if idx == 0x0F then 0xE0 else if idx == 0x4D then 0xFF else 0x00)
      && m.shifter == Shifter(false, true, 0, 0, 0, 0, []) && m.latches == Latches(false, None, None, None)
      && m.joypad == Joypad(0x30, 0x0F, 0x0F) && m.lyOverride == None && m.rom == rom && m.boot == boot
      && m.bootOn == boot.Some?
  {
  }

  lemma PowerOnCells(rom: seq<bv8>, boot: Option<seq<bv8>>, addr: Word)
    requires Keeps(addr)
    ensures ReadByte(Fresh(rom, boot), addr) == 0
  {
    hide RomByte, ReadHigh, BankFor;
  }

  lemma PowerOnBank(rom: seq<bv8>, boot: Option<seq<bv8>>, addr: Word)
    requires 0x4000 <= addr < 0x8000 && |rom| > 0x4000
    ensures ReadByte(Fresh(rom, boot), addr) == if addr < |rom| then rom[addr] else 0xFF
  {
    hide ReadHigh;
    assert Fresh(rom, boot).bank == 1;
  }

  /** memory reads zero, IF 0xE0, the joypad no key, the boot register whether there is a boot program, and
      the upper window the first switchable bank. */
  lemma PowerOn(rom: seq<bv8>, boot: Option<seq<bv8>>, addr: Word)
    ensures var m := Fresh(rom, boot);
      && (Keeps(addr) ==> ReadByte(m, addr) == 0)
      && ReadByte(m, 0xFF0F) == 0xE0 && ReadByte(m, 0xFF00) == 0xF0
      && ReadByte(m, 0xFF50) == (if boot.Some? then 0 else 1)
      && (0x4000 <= addr < 0x8000 && |rom| > 0x4000 ==> ReadByte(m, addr) == if addr < |rom| then rom[addr] else 0xFF)
  {
    hide ReadByte, Fresh, Keeps;
    if Keeps(addr) { PowerOnCells(rom, boot, addr); }
    if 0x4000 <= addr < 0x8000 && |rom| > 0x4000 { PowerOnBank(rom, boot, addr); }
    PowerOnState(rom, boot);
    PowerOnRegisters(Fresh(rom, boot));
  }

  lemma PowerOnRegisters(m: Bus)
    requires m.joypad == Joypad(0x30, 0x0F, 0x0F)
    ensures ReadByte(m, 0xFF0F) == m.io[0x0F] && ReadByte(m, 0xFF00) == 0xF0
    ensures ReadByte(m, 0xFF50) == if m.bootOn then 0 else 1
  {
  }

  // ----- Peripherals and processor see the same registers -----

  /** What a peripheral is answered is what the processor would read, */
  lemma AnswersAreReads(m: Bus, idx: RegIndex)
    ensures Serve(m, GetDiv).1 == Byte(ReadByte(m, 0xFF04)) && Serve(m, GetTima).1 == Byte(ReadByte(m, 0xFF05))
    ensures Serve(m, GetTma).1 == Byte(ReadByte(m, 0xFF06)) && Serve(m, GetTac).1 == Byte(ReadByte(m, 0xFF07))
    ensures Serve(m, GetIf).1 == Byte(ReadByte(m, 0xFF0F)) && Serve(m, GetIe).1 == Byte(ReadByte(m, 0xFFFF))
    ensures idx !in {0x00, 0x50} && (idx == 0x44 ==> m.lyOverride.None?) ==>
      Serve(m, GetReg(idx)).1 == Byte(ReadByte(m, 0xFF00 + idx))
  {
  }

  /** and what it puts there is what the processor then reads, with nothing latched for the timers. */
  lemma PutsAreRead(m: Bus, idx: RegIndex, value: bv8)
    ensures var m' := Serve(m, PutDiv(value)).0; ReadByte(m', 0xFF04) == value && m' == m.(io := m.io[4 := value])
    ensures var m' := Serve(m, PutTima(value)).0; ReadByte(m', 0xFF05) == value && m' == m.(io := m.io[5 := value])
    ensures var m' := Serve(m, PutIf(value)).0;
      ReadByte(m', 0xFF0F) == (value & 0x1F) | 0xE0 && m' == m.(io := m.io[15 := (value & 0x1F) | 0xE0])
    ensures var m' := Serve(m, PutReg(idx, value)).0;
      m' == m.(io := m.io[idx := if idx == 0x02 then value & 0x81 else if idx == 0x4D then 0xFF else value])
  {
  }

  /** The serial link's registers on the bus are the link's own, and the link touches no others. */
  lemma LinkOnBus(m: Bus, l: Serial.Link, idx: RegIndex)
    ensures var m' := WithLink(m, l);
      && LinkOf(m') == l && m' == m.(io := m'.io, shifter := m'.shifter)
      && (idx !in {0x01, 0x02, 0x0F} ==> m'.io[idx] == m.io[idx])
      && ReadByte(m', 0xFF01) == l.sb && ReadByte(m', 0xFF0F) == l.flags
  {
  }
}
