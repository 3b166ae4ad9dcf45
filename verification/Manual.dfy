/**
 The instruction set as a programmer's manual gives it: for every opcode, what happens to registers,
 flags and memory, and how long it takes. Nothing here knows of micro-operations or scratch registers;
 sums are taken in sixteen bits or as numbers, and memory is read and written in the order of the bus.
 */
module Manual {
  import opened MemoryBus
  import opened Core
  import opened Instructions
  import opened Lanes
  import opened Decimal
  import opened CoreLoop

  /** The registers a program can see. */
  datatype Regs = Regs(
    a: bv8, f: FlagBits, b: bv8, c: bv8, d: bv8, e: bv8, h: bv8, l: bv8, sp: Word, pc: Word,
    ime: bool, halted: bool, pending: bool, haltBug: bool)

  /** Everything around the processor, and the time that has passed there. */
  datatype Outside<D> = Outside(bus: Bus, dev: D, cycles: nat, credit: nat)

  datatype State<D> = State(r: Regs, o: Outside<D>)

  // ----- Bytes, words and memory -----

  function Joined(h: bv8, l: bv8): Word {
    h as nat * 0x100 + l as nat
  }

  function Upper(w: Word): bv8 {
    (w / 0x100) as bv8
  }

  function Lower(w: Word): bv8 {
    (w % 0x100) as bv8
  }

  function Moved(w: Word, delta: int): Word {
    (w + delta) % 0x1_0000
  }

  /** A byte read as a number from -128 to 127. */
  function SignedByte(v: bv8): int {
    if v as int < 0x80 then v as int else v as int - 0x100
  }

  /** A span of time, in which the peripherals run. */
  function Passed<D>(p: Device<D>, o: Outside<D>, n: nat): Outside<D> {
    if n == 0 then o
    else
      var (bus, dev) := Turn(ScalarBackend(), p, o.bus, p.begin(o.dev, n), p.turns);
      Outside(bus, dev, o.cycles + n, o.credit)
  }

  /** The four cycles of an access, which count towards the instruction's time. */
  function Spend<D>(p: Device<D>, o: Outside<D>): Outside<D> {
    Passed(p, o, 4).(credit := o.credit + 4)
  }

  /** The byte at PC, which moves on except right after a HALT that did not stop. */
  function FetchByte<D>(p: Device<D>, s: State<D>): (bv8, State<D>) {
    (ReadByte(s.o.bus, s.r.pc),
     State(s.r.(pc := if s.r.haltBug then s.r.pc else Moved(s.r.pc, 1), haltBug := false), Spend(p, s.o)))
  }

  function FetchWord<D>(p: Device<D>, s: State<D>): (Word, State<D>) {
    var (lo, s1) := FetchByte(p, s);
    var (hi, s2) := FetchByte(p, s1);
    (Joined(hi, lo), s2)
  }

  function LoadByte<D>(p: Device<D>, s: State<D>, addr: Word): (bv8, State<D>) {
    (ReadByte(s.o.bus, addr), s.(o := Spend(p, s.o)))
  }

  function StoreByte<D>(p: Device<D>, s: State<D>, addr: Word, v: bv8): State<D> {
    s.(o := Spend(p, s.o.(bus := WriteByte(s.o.bus, addr, v))))
  }

  /** The high byte goes below the stack pointer and the low byte below that. */
  function PushWord<D>(s: State<D>, hi: bv8, lo: bv8): State<D> {
    var sp := s.r.sp;
    State(s.r.(sp := Moved(sp, -2)),
          s.o.(bus := WriteByte(WriteByte(s.o.bus, Moved(sp, -1), hi), Moved(sp, -2), lo)))
  }

  function PushPc<D>(s: State<D>): State<D> {
    PushWord(s, Upper(s.r.pc), Lower(s.r.pc))
  }

  /** High and low byte from the stack. */
  function PopWord<D>(s: State<D>): (bv8, bv8, State<D>) {
    var sp := s.r.sp;
    (ReadByte(s.o.bus, Moved(sp, 1)), ReadByte(s.o.bus, sp), s.(r := s.r.(sp := Moved(sp, 2))))
  }

  function PopPc<D>(s: State<D>): State<D> {
    var (hi, lo, s1) := PopWord(s);
    s1.(r := s1.r.(pc := Joined(hi, lo)))
  }

  // ----- Operands -----

  /** Registers by their code: B, C, D, E, H, L and, for 7, A. */
  function Register(r: Regs, code: Code): bv8
    requires code != 6
  {
    if code == 0 then r.b else if code == 1 then r.c else if code == 2 then r.d else if code == 3 then r.e
    else if code == 4 then r.h else if code == 5 then r.l else r.a
  }

  function WithRegister(r: Regs, code: Code, v: bv8): Regs
    requires code != 6
  {
    if code == 0 then r.(b := v) else if code == 1 then r.(c := v) else if code == 2 then r.(d := v)
    else if code == 3 then r.(e := v) else if code == 4 then r.(h := v) else if code == 5 then r.(l := v)
    else r.(a := v)
  }

  /** Code 6 is the byte HL points to. */
  function Operand<D>(p: Device<D>, s: State<D>, code: Code): (bv8, State<D>) {
    if code == 6 then LoadByte(p, s, Joined(s.r.h, s.r.l)) else (Register(s.r, code), s)
  }

  function Result<D>(p: Device<D>, s: State<D>, code: Code, v: bv8): State<D> {
    if code == 6 then StoreByte(p, s, Joined(s.r.h, s.r.l), v) else s.(r := WithRegister(s.r, code, v))
  }

  /** BC, DE, HL and SP. */
  function Pair(r: Regs, n: nat): Word {
    if n == 0 then Joined(r.b, r.c) else if n == 1 then Joined(r.d, r.e)
    else if n == 2 then Joined(r.h, r.l) else r.sp
  }

  function WithPair(r: Regs, n: nat, w: Word): Regs {
    if n == 0 then r.(b := Upper(w), c := Lower(w)) else if n == 1 then r.(d := Upper(w), e := Lower(w))
    else if n == 2 then r.(h := Upper(w), l := Lower(w)) else r.(sp := w)
  }

  // ----- Arithmetic -----

  function Narrow(v: bv16): bv8 {
    (v & 0xFF) as bv8
  }

  function Sum8(a: bv8, b: bv8, carry: bool): (bv8, FlagBits) {
    var s := Wide(a) + Wide(b) + One(carry);
    (Narrow(s), FlagBits(Narrow(s) == 0, false, Wide(a & 0x0F) + Wide(b & 0x0F) + One(carry) > 0x0F, s > 0xFF))
  }

  function Less8(a: bv8, b: bv8, borrow: bool): (bv8, FlagBits) {
    var s := Wide(a) - Wide(b) - One(borrow);
    (Narrow(s), FlagBits(Narrow(s) == 0, true, Wide(a & 0x0F) < Wide(b & 0x0F) + One(borrow),
                         Wide(a) < Wide(b) + One(borrow)))
  }

  function Mixed(fn: Code, a: bv8, b: bv8): bv8 {
    if fn == 4 then a & b else if fn == 5 then a ^ b else a | b
  }

  /** ADD, ADC, SUB, SBC, AND, XOR, OR and CP with the accumulator. */
  function Accumulate(r: Regs, fn: Code, b: bv8): Regs {
    if fn == 0 then var (v, f) := Sum8(r.a, b, false); r.(a := v, f := f)
    else if fn == 1 then var (v, f) := Sum8(r.a, b, r.f.c); r.(a := v, f := f)
    else if fn == 2 then var (v, f) := Less8(r.a, b, false); r.(a := v, f := f)
    else if fn == 3 then var (v, f) := Less8(r.a, b, r.f.c); r.(a := v, f := f)
    else if fn == 7 then r.(f := Less8(r.a, b, false).1)
    else var v := Mixed(fn, r.a, b); r.(a := v, f := FlagBits(v == 0, false, fn == 4, false))
  }

  /** INC and DEC of a byte leave the carry. */
  function Stepped(up: bool, v: bv8, f: FlagBits): (bv8, FlagBits) {
    if up then (v + 1, FlagBits(v == 0xFF, false, v & 0x0F == 0x0F, f.c))
    else (v - 1, FlagBits(v == 0x01, true, v & 0x0F == 0x00, f.c))
  }

  /** RLC, RRC, RL, RR, SLA, SRA, SWAP and SRL: the byte and the carry. */
  function Turned(kind: Code, v: bv8, carry: bool): (bv8, bool) {
    if kind == 0 then (v.RotateLeft(1), v >= 0x80)
    else if kind == 1 then (v.RotateRight(1), v % 2 == 1)
    else if kind == 2 then (v + v + (if carry then 1 else 0), v >= 0x80)
    else if kind == 3 then (v / 2 + (if carry then 0x80 else 0), v % 2 == 1)
    else if kind == 4 then (v + v, v >= 0x80)
    else if kind == 5 then (v / 2 + (if v >= 0x80 then 0x80 else 0), v % 2 == 1)
    else if kind == 6 then (v.RotateLeft(4), false)
    else (v / 2, v % 2 == 1)
  }

  /** Bit `bit` of a byte, and the byte with it reset or set. */
  predicate HasBit(v: bv8, bit: Code) {
    v & (1 << bit) != 0
  }

  function Without(v: bv8, bit: Code): bv8 {
    v & !(1 << bit)
  }

  function With(v: bv8, bit: Code): bv8 {
    v | (1 << bit)
  }

  /** The correction DAA adds after an addition and takes off after a subtraction. */
  function Correction(v: bv8, f: FlagBits): bv8 {
    (if f.h || (!f.n && v & 0x0F > 0x09) then 0x06 else 0x00) + (if f.c || (!f.n && v > 0x99) then 0x60 else 0x00)
  }

  function Corrected(v: bv8, f: FlagBits): (bv8, FlagBits) {
    var r := if f.n then v - Correction(v, f) else v + Correction(v, f);
    (r, FlagBits(r == 0, f.n, false, f.c || (!f.n && v > 0x99)))
  }

  /** RLCA, RRCA, RLA, RRA, DAA, CPL, SCF and CCF. */
  function AccumulatorOp(r: Regs, kind: Code): Regs {
    if kind < 4 then var (v, c) := Turned(kind, r.a, r.f.c); r.(a := v, f := FlagBits(false, false, false, c))
    else if kind == 4 then var (v, f) := Corrected(r.a, r.f); r.(a := v, f := f)
    else if kind == 5 then r.(a := 0xFF - r.a, f := r.f.(n := true, h := true))
    else if kind == 6 then r.(f := r.f.(n := false, h := false, c := true))
    else r.(f := r.f.(n := false, h := false, c := !r.f.c))
  }

  /** HL plus a pair: Z stays, H and C are the carries out of bits 11 and 15. */
  function AddToHl(r: Regs, w: Word): Regs {
    var hl := Joined(r.h, r.l);
    WithPair(r, 2, Moved(hl, w))
      .(f := FlagBits(r.f.z, false, hl % 0x1000 + w % 0x1000 >= 0x1000, hl + w >= 0x1_0000))
  }

  /** SP plus a signed byte; H and C are the carries of the unsigned bytes, Z and N are cleared. */
  function SpPlus(r: Regs, v: bv8): (Word, FlagBits) {
    (Moved(r.sp, SignedByte(v)),
     FlagBits(false, false, r.sp % 0x10 + v as nat % 0x10 >= 0x10, r.sp % 0x100 + v as nat >= 0x100))
  }

  /** The byte PUSH AF stores, and the flags POP AF takes from one. */
  function FlagByte(f: FlagBits): bv8 {
    (if f.z then 0x80 else 0) + (if f.n then 0x40 else 0) + (if f.h then 0x20 else 0) + (if f.c then 0x10 else 0)
  }

  function ByteFlags(v: bv8): FlagBits {
    FlagBits(v >= 0x80, v & 0x40 == 0x40, v & 0x20 == 0x20, v & 0x10 == 0x10)
  }

  // ----- Branches -----

  /** NZ, Z, NC and C, by opcode. */
  predicate Taken(f: FlagBits, op: Opcode) {
    if op in {0x20, 0xC0, 0xC2, 0xC4} then !f.z
    else if op in {0x28, 0xC8, 0xCA, 0xCC} then f.z
    else if op in {0x30, 0xD0, 0xD2, 0xD4} then !f.c
    else op in {0x38, 0xD8, 0xDA, 0xDC} && f.c
  }

  function Jr<D>(p: Device<D>, s: State<D>, op: Opcode): (State<D>, nat) {
    var (v, s1) := FetchByte(p, s);
    if op == 0x18 || Taken(s.r.f, op) then (s1.(r := s1.r.(pc := Moved(s1.r.pc, SignedByte(v)))), 12) else (s1, 8)
  }

  function Jp<D>(p: Device<D>, s: State<D>, op: Opcode): (State<D>, nat) {
    var (w, s1) := FetchWord(p, s);
    if op == 0xC3 || Taken(s.r.f, op) then (s1.(r := s1.r.(pc := w)), 16) else (s1, 12)
  }

  function CallOp<D>(p: Device<D>, s: State<D>, op: Opcode): (State<D>, nat) {
    var (w, s1) := FetchWord(p, s);
    if op == 0xCD || Taken(s.r.f, op) then
      var s2 := PushPc(s1);
      (s2.(r := s2.r.(pc := w)), 24)
    else (s1, 12)
  }

  function Ret<D>(s: State<D>, op: Opcode): (State<D>, nat) {
    if op == 0xC9 then (PopPc(s), 16)
    else if op == 0xD9 then var s1 := PopPc(s); (s1.(r := s1.r.(ime := true)), 16)
    else if Taken(s.r.f, op) then (PopPc(s), 20) else (s, 8)
  }

  /** RST to 0x00, 0x08, up to 0x38. */
  function Rst<D>(s: State<D>, op: Opcode): (State<D>, nat)
    requires 0xC7 <= op
  {
    var s1 := PushPc(s);
    (s1.(r := s1.r.(pc := op - 0xC7)), 16)
  }

  // ----- Opcodes 0x00 to 0x3F -----

  function Column0<D>(p: Device<D>, s: State<D>, op: Opcode): (State<D>, nat) {
    if op == 0x00 then (s, 4)
    else if op == 0x08 then
      var (w, s1) := FetchWord(p, s);
      (StoreByte(p, StoreByte(p, s1, w, Lower(s1.r.sp)), Moved(w, 1), Upper(s1.r.sp)), 20)
    else if op == 0x10 then (s.(r := s.r.(halted := true)), 4)
    else Jr(p, s, op)
  }

  /** LD rr,nn and ADD HL,rr. */
  function Column1<D>(p: Device<D>, s: State<D>, op: Opcode): (State<D>, nat) {
    if op % 16 == 1 then
      var (w, s1) := FetchWord(p, s);
      (s1.(r := WithPair(s1.r, op / 16, w)), 12)
    else (s.(r := AddToHl(s.r, Pair(s.r, op / 16))), 8)
  }

  /** Where the indirect loads point, and what they do to HL. */
  function Pointer(r: Regs, op: Opcode): (Word, Regs) {
    var hl := Pair(r, 2);
    if op < 0x10 then (Pair(r, 0), r) else if op < 0x20 then (Pair(r, 1), r)
    else (hl, WithPair(r, 2, Moved(hl, if op < 0x30 then 1 else -1)))
  }

  function Column2<D>(p: Device<D>, s: State<D>, op: Opcode): (State<D>, nat) {
    var (addr, r) := Pointer(s.r, op);
    if op % 16 == 2 then (StoreByte(p, s, addr, s.r.a).(r := r), 8)
    else
      var (v, s1) := LoadByte(p, s, addr);
      (s1.(r := r.(a := v)), 8)
  }

  function Column3<D>(s: State<D>, op: Opcode): (State<D>, nat) {
    (s.(r := WithPair(s.r, op / 16, Moved(Pair(s.r, op / 16), if op % 16 == 3 then 1 else -1))), 8)
  }

  function Column45<D>(p: Device<D>, s: State<D>, op: Opcode): (State<D>, nat)
    requires op < 0x40
  {
    var (v, s1) := Operand(p, s, op / 8);
    var (v', f) := Stepped(op % 8 == 4, v, s.r.f);
    var s2 := Result(p, s1, op / 8, v');
    (s2.(r := s2.r.(f := f)), if op / 8 == 6 then 12 else 4)
  }

  function Column6<D>(p: Device<D>, s: State<D>, op: Opcode): (State<D>, nat)
    requires op < 0x40
  {
    var (v, s1) := FetchByte(p, s);
    (Result(p, s1, op / 8, v), if op / 8 == 6 then 12 else 8)
  }

  function FirstQuarter<D>(p: Device<D>, s: State<D>, op: Opcode): (State<D>, nat)
    requires op < 0x40
  {
    var column := op % 8;
    if column == 0 then Column0(p, s, op)
    else if column == 1 then Column1(p, s, op)
    else if column == 2 then Column2(p, s, op)
    else if column == 3 then Column3(s, op)
    else if column < 6 then Column45(p, s, op)
    else if column == 6 then Column6(p, s, op)
    else (s.(r := AccumulatorOp(s.r, op / 8)), 4)
  }

  // ----- Opcodes 0x40 to 0xBF -----

  /** Interrupts both enabled and flagged. */
  function Waiting(bus: Bus): bv8 {
    bus.ie & bus.io[0x0F]
  }

  /** HALT sleeps, except with interrupts off and one waiting: then the next byte is fetched twice. */
  function HaltOp<D>(s: State<D>): (State<D>, nat) {
    (s.(r := if !s.r.ime && Waiting(s.o.bus) & 0x1F != 0 then s.r.(haltBug := true) else s.r.(halted := true)), 4)
  }

  function Transfer8<D>(p: Device<D>, s: State<D>, dst: Code, src: Code): (State<D>, nat) {
    var (v, s1) := Operand(p, s, src);
    (Result(p, s1, dst, v), if dst == 6 || src == 6 then 8 else 4)
  }

  function Arithmetic8<D>(p: Device<D>, s: State<D>, fn: Code, src: Code): (State<D>, nat) {
    var (v, s1) := Operand(p, s, src);
    (s1.(r := Accumulate(s1.r, fn, v)), if src == 6 then 8 else 4)
  }

  // ----- Opcodes 0xC0 to 0xFF -----

  function HighColumn0<D>(p: Device<D>, s: State<D>, op: Opcode): (State<D>, nat) {
    if op < 0xE0 then Ret(s, op)
    else
      var (v, s1) := FetchByte(p, s);
      var port, (w, f) := 0xFF00 + v as nat, SpPlus(s1.r, v);
      if op == 0xE0 then (StoreByte(p, s1, port, s1.r.a), 12)
      else if op == 0xF0 then
        var (v', s2) := LoadByte(p, s1, port);
        (s2.(r := s2.r.(a := v')), 12)
      else if op == 0xE8 then (s1.(r := s1.r.(sp := w, f := f)), 16)
      else (s1.(r := WithPair(s1.r, 2, w).(f := f)), 12)
  }

  /** POP, RET, RETI, JP HL and LD SP,HL. */
  function HighColumn1<D>(s: State<D>, op: Opcode): (State<D>, nat) {
    if op == 0xC9 || op == 0xD9 then Ret(s, op)
    else if op == 0xE9 then (s.(r := s.r.(pc := Pair(s.r, 2))), 4)
    else if op == 0xF9 then (s.(r := s.r.(sp := Pair(s.r, 2))), 8)
    else
      var (hi, lo, s1) := PopWord(s);
      (s1.(r := if op == 0xC1 then s1.r.(b := hi, c := lo) else if op == 0xD1 then s1.r.(d := hi, e := lo)
                else if op == 0xE1 then s1.r.(h := hi, l := lo) else s1.r.(a := hi, f := ByteFlags(lo))), 12)
  }

  function HighColumn2<D>(p: Device<D>, s: State<D>, op: Opcode): (State<D>, nat) {
    if op < 0xE0 then Jp(p, s, op)
    else if op == 0xE2 then (StoreByte(p, s, 0xFF00 + s.r.c as nat, s.r.a), 8)
    else if op == 0xF2 then
      var (v, s1) := LoadByte(p, s, 0xFF00 + s.r.c as nat);
      (s1.(r := s1.r.(a := v)), 8)
    else
      var (w, s1) := FetchWord(p, s);
      if op == 0xEA then (StoreByte(p, s1, w, s1.r.a), 16)
      else
        var (v, s2) := LoadByte(p, s1, w);
        (s2.(r := s2.r.(a := v)), 16)
  }

  function HighColumn3<D>(p: Device<D>, s: State<D>, op: Opcode): (State<D>, nat) {
    if op == 0xC3 then Jp(p, s, op)
    else if op == 0xF3 then (s.(r := s.r.(ime := false, pending := false)), 4)
    else if op == 0xFB then (s.(r := s.r.(pending := true)), 4)
    else (s, 4)
  }

  function HighColumn4<D>(p: Device<D>, s: State<D>, op: Opcode): (State<D>, nat) {
    if op < 0xE0 then CallOp(p, s, op) else (s, 4)
  }

  function HighColumn5<D>(p: Device<D>, s: State<D>, op: Opcode): (State<D>, nat) {
    if op == 0xCD then CallOp(p, s, op)
    else if op == 0xC5 then (PushWord(s, s.r.b, s.r.c), 16)
    else if op == 0xD5 then (PushWord(s, s.r.d, s.r.e), 16)
    else if op == 0xE5 then (PushWord(s, s.r.h, s.r.l), 16)
    else if op == 0xF5 then (PushWord(s, s.r.a, FlagByte(s.r.f)), 16)
    else (s, 4)
  }

  function LastQuarter<D>(p: Device<D>, s: State<D>, op: Opcode): (State<D>, nat)
    requires 0xC0 <= op
  {
    var column := op % 8;
    if column == 0 then HighColumn0(p, s, op)
    else if column == 1 then HighColumn1(s, op)
    else if column == 2 then HighColumn2(p, s, op)
    else if column == 3 then HighColumn3(p, s, op)
    else if column == 4 then HighColumn4(p, s, op)
    else if column == 5 then HighColumn5(p, s, op)
    else if column == 6 then
      var (v, s1) := FetchByte(p, s);
      (s1.(r := Accumulate(s1.r, op / 8 % 8, v)), 8)
    else Rst(s, op)
  }

  // ----- All opcodes -----

  /** The effect and the time of an opcode other than the prefix. */
  function Instruction<D>(p: Device<D>, s: State<D>, op: Opcode): (State<D>, nat) {
    if op < 0x40 then FirstQuarter(p, s, op)
    else if op == 0x76 then HaltOp(s)
    else if op < 0x80 then Transfer8(p, s, op / 8 % 8, op % 8)
    else if op < 0xC0 then Arithmetic8(p, s, op / 8 % 8, op % 8)
    else LastQuarter(p, s, op)
  }

  /** The prefixed opcodes: rotations and shifts, BIT, RES and SET. */
  function Prefixed<D>(p: Device<D>, s: State<D>, sub: Opcode): (State<D>, nat) {
    var code, bit := sub % 8, sub / 8 % 8;
    var (v, s1) := Operand(p, s, code);
    if sub < 0x40 then
      var (v', c) := Turned(bit, v, s.r.f.c);
      (Result(p, s1.(r := s1.r.(f := FlagBits(v' == 0, false, false, c))), code, v'), if code == 6 then 16 else 8)
    else if sub < 0x80 then
      (s1.(r := s1.r.(f := FlagBits(!HasBit(v, bit), false, true, s.r.f.c))), if code == 6 then 12 else 8)
    else
      (Result(p, s1, code, if sub < 0xC0 then Without(v, bit) else With(v, bit)), if code == 6 then 16 else 8)
  }

  // ----- Whole instructions and interrupts -----

  /** Fetches and carries out one instruction. After EI the next instruction ends with interrupts on; at
      the end the peripherals get what is left of the instruction's time. */
  function Execute<D>(p: Device<D>, s: State<D>): (State<D>, nat) {
    var (op, s1) := FetchByte(p, s.(o := s.o.(credit := 0)));
    var (s2, cost) :=
      if op == 0xCB then var (sub, s2) := FetchByte(p, s1); Prefixed(p, s2, sub as nat)
      else Instruction(p, s1, op as nat);
    var r := if s.r.pending then s2.r.(ime := true, pending := op == 0xFB) else s2.r;
    var left := if cost > s2.o.credit then cost - s2.o.credit else 0;
    (State(r, Passed(p, s2.o, left).(credit := 0)), cost)
  }

  /** The lowest of the five interrupt lines from `from` on that is set, or 5. */
  function Lowest(v: bv8, from: nat): (bit: nat)
    requires from <= 5
    ensures from <= bit <= 5
    decreases 5 - from
  {
    if from == 5 || HasBit(v, from) then from else Lowest(v, from + 1)
  }

  /** Interrupt `bit`: its flag is cleared, interrupts go off, PC is pushed and the vector is entered in
      twenty cycles. */
  function Interrupted<D>(p: Device<D>, s: State<D>, bit: nat): State<D>
    requires bit < 5
  {
    var flags := (Without(s.o.bus.io[0x0F], bit) & 0x1F) | 0xE0;
    var s1 := PushPc(s.(o := s.o.(bus := s.o.bus.(io := s.o.bus.io[0x0F := flags]))));
    State(s1.r.(pc := 0x40 + 8 * bit, ime := false, halted := false), Passed(p, s1.o, 20))
  }

  /** Any interrupt both flagged and enabled ends a HALT; with interrupts on the lowest is taken. */
  function Interrupts<D>(p: Device<D>, s: State<D>): Outcome<(State<D>, nat)> {
    var pending := Waiting(s.o.bus);
    if pending == 0 then Fine((s, 0))
    else if !s.r.ime then Fine((s.(r := s.r.(halted := false)), 0))
    else
      var bit := Lowest(pending, 0);
      if bit == 5 then Panic else Fine((Interrupted(p, s, bit), 20))
  }

  /** One turn: an interrupt, or up to four cycles asleep, or an instruction. */
  function OneTurn<D>(p: Device<D>, s: State<D>, budget: nat): Outcome<State<D>> {
    match Interrupts(p, s)
    case Panic => Panic
    case Fine((s1, spent)) =>
      Fine(if spent != 0 then s1
           else if s1.r.halted then s1.(o := Passed(p, s1.o, if budget < 4 then budget else 4))
           else Execute(p, s1).0)
  }
}
