/**
 The processor core, written once over an execution backend, as in the emulator: an instruction
 body is a small program of micro-operations with a declared cost; executing an opcode charges
 four cycles per access as it goes and tops up to the declared cost at the end.
 */
module Core {
  import opened RingLayout
  import opened MemoryBus

  // ----- Flags and pure byte functions -----

  datatype FlagBits = FlagBits(z: bool, n: bool, h: bool, c: bool)

  function FlagsToByte(f: FlagBits): bv8 {
    (if f.z then 0x80 else 0) | (if f.n then 0x40 else 0) | (if f.h then 0x20 else 0) | (if f.c then 0x10 else 0)
  }

  function FlagsFromByte(v: bv8): FlagBits {
    FlagBits(v & 0x80 != 0, v & 0x40 != 0, v & 0x20 != 0, v & 0x10 != 0)
  }

  /** The instruction bodies that compute on one native byte and the flags. */
  datatype Fn8 =
    | Inc | Dec | Rlca | Rla | Rrca | Rra | Daa | Cpl | Scf | Ccf
    | Rotate(variant: nat) | TestBit(bit: nat) | ResetBit(bit: nat) | SetBit(bit: nat)

  function BitMask(bit: nat): bv8 {
    if bit == 0 then 0x01 else if bit == 1 then 0x02 else if bit == 2 then 0x04 else if bit == 3 then 0x08
    else if bit == 4 then 0x10 else if bit == 5 then 0x20 else if bit == 6 then 0x40 else 0x80
  }

  predicate BitClear(v: bv8, bit: nat) {
    v & BitMask(bit) == 0
  }

  function WithBit(v: bv8, bit: nat): bv8 {
    v | BitMask(bit)
  }

  function WithoutBit(v: bv8, bit: nat): bv8 {
    v & !BitMask(bit)
  }

  function ByBool(b: bool, v: bv8): bv8 {
    if b then v else 0
  }

  function Rotated(variant: nat, v: bv8, carry: bool): (bv8, bool) {
    if variant == 0 then ((v << 1) | (v >> 7), v & 0x80 != 0)
    else if variant == 1 then ((v >> 1) | (v << 7), v & 0x01 != 0)
    else if variant == 2 then ((v << 1) | ByBool(carry, 1), v & 0x80 != 0)
    else if variant == 3 then ((v >> 1) | ByBool(carry, 0x80), v & 0x01 != 0)
    else if variant == 4 then (v << 1, v & 0x80 != 0)
    else if variant == 5 then ((v >> 1) | (v & 0x80), v & 0x01 != 0)
    else if variant == 6 then ((v << 4) | (v >> 4), false)
    else (v >> 1, v & 0x01 != 0)
  }

  function Adjusted(v: bv8, f: FlagBits): (bv8, FlagBits) {
    var high := if !f.n then f.c || v > 0x99 else f.c;
    var v1 := if !high then v else if !f.n then v + 0x60 else v - 0x60;
    var low := if !f.n then f.h || v1 & 0x0F > 0x09 else f.h;
    var v2 := if !low then v1 else if !f.n then v1 + 0x06 else v1 - 0x06;
    (v2, FlagBits(v2 == 0, f.n, false, high))
  }

  function Apply(fn: Fn8, v: bv8, f: FlagBits): (bv8, FlagBits) {
    match fn
    case Inc => var r := v + 1; (r, FlagBits(r == 0, false, (v ^ r) & 0x10 != 0, f.c))
    case Dec => var r := v - 1; (r, FlagBits(r == 0, true, (v ^ r) & 0x10 != 0, f.c))
    case Rlca => ((v << 1) | (v >> 7), FlagBits(false, false, false, v >> 7 != 0))
    case Rla => ((v << 1) | ByBool(f.c, 1), FlagBits(false, false, false, v >> 7 != 0))
    case Rrca => ((v >> 1) | ((v & 0x01) << 7), FlagBits(false, false, false, v & 0x01 != 0))
    case Rra => ((v >> 1) | ByBool(f.c, 0x80), FlagBits(false, false, false, v & 0x01 != 0))
    case Daa => Adjusted(v, f)
    case Cpl => (v ^ 0xFF, f.(n := true, h := true))
    case Scf => (v, f.(n := false, h := false, c := true))
    case Ccf => (v, f.(n := false, h := false, c := !f.c))
    case Rotate(variant) =>
      var (r, carry) := Rotated(variant, v, f.c);
      (r, FlagBits(r == 0, false, false, carry))
    case TestBit(bit) => (v, FlagBits(BitClear(v, bit), false, true, f.c))
    case ResetBit(bit) => (WithoutBit(v, bit), f)
    case SetBit(bit) => (WithBit(v, bit), f)
  }

  /** Eight-bit addition and subtraction, with the flags of the result. */
  function Add8(a: bv8, b: bv8, carry: bool): (bv8, FlagBits) {
    var sum := a + b + ByBool(carry, 1);
    (sum, FlagBits(sum == 0, false, (a ^ b ^ sum) & 0x10 != 0, ((a & b) | ((a | b) & !sum)) & 0x80 != 0))
  }

  function Sub8(a: bv8, b: bv8, borrow: bool): (bv8, FlagBits) {
    var diff := a - b - ByBool(borrow, 1);
    (diff, FlagBits(diff == 0, true, (a ^ b ^ diff) & 0x10 != 0, ((!a & b) | (!(a ^ b) & diff)) & 0x80 != 0))
  }

  // ----- Native sixteen-bit arithmetic -----

  function WordAdd(a: Word, b: Word): Word {
    (a + b) % 0x1_0000
  }

  /** Where a sum has a bit that the exclusive or of its terms does not predict. */
  predicate SumDiffers(a: Word, b: Word, mask: bv16) {
    ((a as bv16) ^ (b as bv16) ^ (WordAdd(a, b) as bv16)) & mask != 0
  }

  /** A byte read as a signed offset, in sixteen bits. */
  function Signed(v: bv8): Word {
    if (v as nat) < 0x80 then v as nat else v as nat + 0xFF00
  }

  function HighWord(v: bv8): Word {
    0xFF00 + v as nat
  }

  // ----- Backends -----

  datatype LogicFn = And | Or | Xor

  /** What the core asks of an execution backend and its bus. */
  datatype Backend<!V, !W, !M, !B> = Backend(
    fromU8: bv8 -> V, toU8: V -> bv8, fromU16: Word -> W, toU16: W -> Word,
    combine: (V, V) -> W, high: W -> V, low: W -> V,
    logic: (LogicFn, V, V) -> V,
    add: (V, V, bool) -> (V, FlagBits), sub: (V, V, bool) -> (V, FlagBits),
    mask: bool -> M, test: M -> bool,
    read: (B, W) -> V, write: (B, W, V) -> B,
    serve: (B, Call) -> (B, Answer))

  // ----- Machine -----

  datatype R8 = Ra | Rb | Rc | Rd | Re | Rh | Rl | Rx | Ry
  datatype R16 = Wsp | Wpc | Wu | Wv

  /** Registers, two scratch bytes and two scratch words. */
  datatype Cpu<V, W, M> = Cpu(
    a: V, b: V, c: V, d: V, e: V, h: V, l: V, x: V, y: V,
    sp: W, pc: W, u: W, v: W,
    fz: M, fn: M, fh: M, fc: M,
    ime: bool, halted: bool, pending: bool, haltBug: bool)

  /** The peripherals as a client of the bus: `begin` hands them a span of cycles, then they issue
      up to `turns` calls, each depending only on their own state and the answers so far. */
  datatype Device<!D> = Device(
    begin: (D, nat) -> D, ask: D -> Option<Call>, tell: (D, Answer) -> D, turns: nat, frameReady: D -> bool)

  datatype Machine<V, W, M, B, D> = Machine(cpu: Cpu<V, W, M>, bus: B, dev: D, cycles: nat, credit: nat)

  function Get8<V, W, M>(c: Cpu<V, W, M>, r: R8): V {
    match r
    case Ra => c.a
    case Rb => c.b
    case Rc => c.c
    case Rd => c.d
    case Re => c.e
    case Rh => c.h
    case Rl => c.l
    case Rx => c.x
    case Ry => c.y
  }

  function Set8<V, W, M>(c: Cpu<V, W, M>, r: R8, v: V): Cpu<V, W, M> {
    match r
    case Ra => c.(a := v)
    case Rb => c.(b := v)
    case Rc => c.(c := v)
    case Rd => c.(d := v)
    case Re => c.(e := v)
    case Rh => c.(h := v)
    case Rl => c.(l := v)
    case Rx => c.(x := v)
    case Ry => c.(y := v)
  }

  function Get16<V, W, M>(c: Cpu<V, W, M>, r: R16): W {
    match r
    case Wsp => c.sp
    case Wpc => c.pc
    case Wu => c.u
    case Wv => c.v
  }

  function Set16<V, W, M>(c: Cpu<V, W, M>, r: R16, w: W): Cpu<V, W, M> {
    match r
    case Wsp => c.(sp := w)
    case Wpc => c.(pc := w)
    case Wu => c.(u := w)
    case Wv => c.(v := w)
  }

  function Flags<V, W, M, B>(k: Backend<V, W, M, B>, c: Cpu<V, W, M>): FlagBits {
    FlagBits(k.test(c.fz), k.test(c.fn), k.test(c.fh), k.test(c.fc))
  }

  function WithFlags<V, W, M, B>(k: Backend<V, W, M, B>, c: Cpu<V, W, M>, f: FlagBits): Cpu<V, W, M> {
    c.(fz := k.mask(f.z), fn := k.mask(f.n), fh := k.mask(f.h), fc := k.mask(f.c))
  }

  // ----- Time -----

  function Turn<V, W, M, B, D>(k: Backend<V, W, M, B>, p: Device<D>, bus: B, dev: D, turns: nat): (B, D)
    decreases turns
  {
    if turns == 0 then (bus, dev)
    else
      match p.ask(dev)
      case None => (bus, dev)
      case Some(call) =>
        var (bus', answer) := k.serve(bus, call);
        Turn(k, p, bus', p.tell(dev, answer), turns - 1)
  }

  function Consume<V, W, M, B, D>(k: Backend<V, W, M, B>, p: Device<D>, m: Machine<V, W, M, B, D>, n: nat)
    : (r: Machine<V, W, M, B, D>)
    ensures r.cycles == m.cycles + n && r.credit == m.credit && r.cpu == m.cpu
  {
    if n == 0 then m
    else
      var (bus, dev) := Turn(k, p, m.bus, p.begin(m.dev, n), p.turns);
      m.(bus := bus, dev := dev, cycles := m.cycles + n)
  }

  /** Four cycles paid for in the middle of an instruction. */
  function Charge<V, W, M, B, D>(k: Backend<V, W, M, B>, p: Device<D>, m: Machine<V, W, M, B, D>)
    : (r: Machine<V, W, M, B, D>)
    ensures r.cycles == m.cycles + 4 && r.credit == m.credit + 4 && r.cpu == m.cpu
  {
    var m' := Consume(k, p, m, 4);
    m'.(credit := m'.credit + 4)
  }

  // ----- Micro-operations -----

  datatype Op =
    | FetchImm(dst: R8) | Load(dst: R8, addr: R16) | Store(addr: R16, src: R8)
    | BareLoad(dst: R8, addr: R16) | BareStore(addr: R16, src: R8)
    | Join(wdst: R16, hi: R8, lo: R8) | Part(hi: R8, lo: R8, wsrc: R16)
    | Copy8(dst: R8, src: R8) | Copy16(wdst: R16, wsrc: R16)
    | Logic(fn: LogicFn, operand: R8) | Sum(withCarry: bool, operand: R8)
    | Difference(withBorrow: bool, keep: bool, operand: R8)
    | Native8(dst: R8, fn8: Fn8, src: R8)
    | Offset(wdst: R16, wsrc: R16, delta: Word) | AddWords(wdst: R16, wsrc: R16, rhs: R16)
    | AddSigned(wdst: R16, wsrc: R16, off: R8, flags: bool)
    | HighPage(wdst: R16, src: R8) | PutWord(wdst: R16, word: Word)
    | FlagsOut(dst: R8) | FlagsIn(src: R8)
    | SetIme(on: bool) | SetPending(on: bool) | Halt | Stop

  /** Cycles charged by the operation itself. */
  function Fee(op: Op): nat {
    if op.FetchImm? || op.Load? || op.Store? then 4 else 0
  }

  function Fetch<V, W, M, B, D>(k: Backend<V, W, M, B>, m: Machine<V, W, M, B, D>, dst: R8)
    : (r: Machine<V, W, M, B, D>)
    ensures r.cycles == m.cycles && r.credit == m.credit
  {
    var byte := k.read(m.bus, m.cpu.pc);
    var next := k.fromU16(WordAdd(k.toU16(m.cpu.pc), 1));
    var pc := if m.cpu.haltBug then k.fromU16(WordAdd(k.toU16(next), 0xFFFF)) else next;
    m.(cpu := Set8(m.cpu.(pc := pc, haltBug := false), dst, byte))
  }

  /** Operations on registers alone. */
  function OnCpu<V, W, M, B>(k: Backend<V, W, M, B>, c: Cpu<V, W, M>, op: Op): Cpu<V, W, M> {
    match op
    case Join(dst, hi, lo) => Set16(c, dst, k.combine(Get8(c, hi), Get8(c, lo)))
    case Part(hi, lo, src) => Set8(Set8(c, hi, k.high(Get16(c, src))), lo, k.low(Get16(c, src)))
    case Copy8(dst, src) => Set8(c, dst, Get8(c, src))
    case Copy16(dst, src) => Set16(c, dst, Get16(c, src))
    case Logic(fn, operand) =>
      var r := k.logic(fn, c.a, Get8(c, operand));
      WithFlags(k, c.(a := r), FlagBits(k.toU8(r) == 0, false, fn == And, false))
    case Sum(withCarry, operand) =>
      var (r, f) := k.add(c.a, Get8(c, operand), withCarry && k.test(c.fc));
      WithFlags(k, c.(a := r), f)
    case Difference(withBorrow, keep, operand) =>
      var (r, f) := k.sub(c.a, Get8(c, operand), withBorrow && k.test(c.fc));
      WithFlags(k, if keep then c.(a := r) else c, f)
    case Native8(dst, fn, src) =>
      var (r, f) := Apply(fn, k.toU8(Get8(c, src)), Flags(k, c));
      WithFlags(k, Set8(c, dst, k.fromU8(r)), f)
    case Offset(dst, src, delta) => Set16(c, dst, k.fromU16(WordAdd(k.toU16(Get16(c, src)), delta)))
    case AddWords(dst, src, rhs) =>
      var a, b := k.toU16(Get16(c, src)), k.toU16(Get16(c, rhs));
      var c' := Set16(c, dst, k.fromU16(WordAdd(a, b)));
      c'.(fn := k.mask(false), fh := k.mask(a % 0x1000 + b % 0x1000 > 0xFFF), fc := k.mask(a + b > 0xFFFF))
    case AddSigned(dst, src, off, flags) =>
      var a, b := k.toU16(Get16(c, src)), Signed(k.toU8(Get8(c, off)));
      var c' := Set16(c, dst, k.fromU16(WordAdd(a, b)));
      if flags then
        WithFlags(k, c', FlagBits(false, false, SumDiffers(a, b, 0x0010), SumDiffers(a, b, 0x0100)))
      else c'
    case HighPage(dst, src) => Set16(c, dst, k.fromU16(HighWord(k.toU8(Get8(c, src)))))
    case PutWord(dst, word) => Set16(c, dst, k.fromU16(word))
    case FlagsOut(dst) => Set8(c, dst, k.fromU8(FlagsToByte(Flags(k, c))))
    case FlagsIn(src) => WithFlags(k, c, FlagsFromByte(k.toU8(Get8(c, src)) & 0xF0))
    case SetIme(on) => c.(ime := on)
    case SetPending(on) => c.(pending := on)
    case Stop => c.(halted := true)
    case _ => c
  }

  function ByteOf(answer: Answer): bv8 {
    if answer.Byte? then answer.value else 0
  }

  function InterruptEnable<V, W, M, B>(k: Backend<V, W, M, B>, bus: B): bv8 {
    ByteOf(k.serve(bus, GetIe).1)
  }

  function InterruptFlags<V, W, M, B>(k: Backend<V, W, M, B>, bus: B): bv8 {
    ByteOf(k.serve(bus, GetIf).1)
  }

  function Exec<V, W, M, B, D>(k: Backend<V, W, M, B>, p: Device<D>, m: Machine<V, W, M, B, D>, op: Op)
    : Machine<V, W, M, B, D>
  {
    match op
    case FetchImm(dst) => Charge(k, p, Fetch(k, m, dst))
    case Load(dst, addr) => Charge(k, p, m.(cpu := Set8(m.cpu, dst, k.read(m.bus, Get16(m.cpu, addr)))))
    case Store(addr, src) => Charge(k, p, m.(bus := k.write(m.bus, Get16(m.cpu, addr), Get8(m.cpu, src))))
    case BareLoad(dst, addr) => m.(cpu := Set8(m.cpu, dst, k.read(m.bus, Get16(m.cpu, addr))))
    case BareStore(addr, src) => m.(bus := k.write(m.bus, Get16(m.cpu, addr), Get8(m.cpu, src)))
    case Halt =>
      var waiting := InterruptEnable(k, m.bus) & InterruptFlags(k, m.bus) & 0x1F != 0;
      m.(cpu := if m.cpu.ime || !waiting then m.cpu.(halted := true) else m.cpu.(haltBug := true))
    case _ => m.(cpu := OnCpu(k, m.cpu, op))
  }

  lemma ExecCharges<V, W, M, B, D>(k: Backend<V, W, M, B>, p: Device<D>, m: Machine<V, W, M, B, D>, op: Op)
    ensures var r := Exec(k, p, m, op);
      r.cycles == m.cycles + Fee(op) && r.credit == m.credit + Fee(op)
  {
    hide OnCpu, Charge, Fetch;
  }

  // ----- Programs -----

  /** An instruction body: operations, branches on a condition, and the declared cost. */
  datatype Prog = Done(cost: nat) | Do(op: Op, next: Prog) | If(cc: nat, taken: Prog, other: Prog)

  function Condition(f: FlagBits, cc: nat): bool {
    if cc == 0 then !f.z else if cc == 1 then f.z else if cc == 2 then !f.c else f.c
  }

  /** Runs a body to its end; the result is the cost it declares. */
  function Run<V, W, M, B, D>(k: Backend<V, W, M, B>, p: Device<D>, m: Machine<V, W, M, B, D>, body: Prog)
    : (Machine<V, W, M, B, D>, nat)
    decreases body
  {
    match body
    case Done(cost) => (m, cost)
    case Do(op, next) => Run(k, p, Exec(k, p, m, op), next)
    case If(cc, taken, other) =>
      Run(k, p, m, if Condition(Flags(k, m.cpu), cc) then taken else other)
  }

  // ----- Costs -----

  /** The least a body has left to charge at its end: declared cost less the fees on the way. */
  function Slack(body: Prog): int {
    match body
    case Done(cost) => cost
    case Do(op, next) => Slack(next) - Fee(op)
    case If(_, taken, other) =>
      var a, b := Slack(taken), Slack(other);
      if a < b then a else b
  }

  /** Every path declares a cost of whole machine cycles, one to six of them. */
  predicate Priced(body: Prog) {
    match body
    case Done(cost) => cost % 4 == 0 && 4 <= cost <= 24
    case Do(_, next) => Priced(next)
    case If(_, taken, other) => Priced(taken) && Priced(other)
  }

  /** Along whichever path a body takes, its fees stay within the cost it declares. */
  lemma {:induction false} RunWithinCost<V, W, M, B, D>(
    k: Backend<V, W, M, B>, p: Device<D>, m: Machine<V, W, M, B, D>, body: Prog)
    requires Priced(body)
    ensures var (r, cost) := Run(k, p, m, body);
      && cost % 4 == 0 && 4 <= cost <= 24
      && r.cycles - m.cycles == r.credit - m.credit >= 0
      && r.credit - m.credit <= cost - Slack(body)
    decreases body
  {
    hide Exec, Condition;
    match body {
      case Done(cost) =>
      case Do(op, next) =>
        ExecCharges(k, p, m, op);
        RunWithinCost(k, p, Exec(k, p, m, op), next);
      case If(cc, taken, other) =>
        RunWithinCost(k, p, m, if Condition(Flags(k, m.cpu), cc) then taken else other);
    }
  }
}
