/**
 The SIMD core runs the same generic code over vectors of bytes, masks and buses. In lockstep it is
 the scalar core once per lane: for every instruction, interrupt and peripheral call, and so for
 any number of steps, lifting a scalar state to lanes commutes with running.
 */
module Lanes {
  import opened RingLayout
  import opened MemoryBus
  import opened Core

  // ----- The scalar backend -----

  function ScalarBackend(): Backend<bv8, Word, bool, Bus> {
    Backend(
      (v: bv8) => v, (v: bv8) => v, (w: Word) => w, (w: Word) => w,
      (h: bv8, l: bv8) => Combined(h, l), (w: Word) => HighByte(w), (w: Word) => LowByte(w),
      (fn: LogicFn, a: bv8, b: bv8) => Bitwise(fn, a, b),
      (a: bv8, b: bv8, carry: bool) => Add8(a, b, carry), (a: bv8, b: bv8, borrow: bool) => Sub8(a, b, borrow),
      (b: bool) => b, (m: bool) => m,
      (m: Bus, w: Word) => ReadByte(m, w), (m: Bus, w: Word, v: bv8) => WriteByte(m, w, v),
      (m: Bus, call: Call) => Serve(m, call))
  }

  function Combined(h: bv8, l: bv8): Word {
    h as nat * 0x100 + l as nat
  }

  function HighByte(w: Word): bv8 {
    (w / 0x100) as bv8
  }

  function LowByte(w: Word): bv8 {
    (w % 0x100) as bv8
  }

  function Bitwise(fn: LogicFn, a: bv8, b: bv8): bv8 {
    match fn
    case And => a & b
    case Or => a | b
    case Xor => a ^ b
  }

  /** Joining two bytes and splitting the word gives them back. */
  lemma HalvesFromWord(h: bv8, l: bv8, hi: nat, lo: nat)
    requires hi == h as nat && lo == l as nat
    ensures HighByte(Combined(h, l)) == h && LowByte(Combined(h, l)) == l
  {
    assert hi < 0x100 && lo < 0x100;
    var w := Combined(h, l);
    DivByPage(w, hi, lo);
    assert HighByte(w) == (w / 0x100) as bv8 == h;
  }

  lemma DivByPage(w: nat, hi: nat, lo: nat)
    requires lo < 0x100 && w == hi * 0x100 + lo
    ensures w / 0x100 == hi && w % 0x100 == lo
  {
  }

  // ----- The SIMD backend -----

  function Splat<T>(n: nat, x: T): (s: seq<T>)
    ensures |s| == n
  {
    seq(n, _ => x)
  }

  /** Lane `i` of a vector. */
  function Lane<T>(s: seq<T>, i: int, missing: T): T {
    if 0 <= i < |s| then s[i] else missing
  }

  function NoBus(): Bus {
    Fresh([], None)
  }

  function FirstByte(lanes: seq<Option<bv8>>): Option<bv8>
    decreases |lanes|
  {
    if lanes == [] then None else if lanes[0].Some? then lanes[0] else FirstByte(lanes[1..])
  }

  function FirstPair(lanes: seq<Option<(bv8, bv8)>>): Option<(bv8, bv8)>
    decreases |lanes|
  {
    if lanes == [] then None else if lanes[0].Some? then lanes[0] else FirstPair(lanes[1..])
  }

  /** A call on all lanes: latches merge over the lanes, reads answer for lane 0, writes go to all. */
  function ServeLanes(n: nat, lanes: seq<Bus>, call: Call): (seq<Bus>, Answer) {
    var after := seq(n, i => Serve(Lane(lanes, i, NoBus()), call).0);
    match call
    case TakeDivReset => (after, Flag(exists i :: 0 <= i < n && Lane(lanes, i, NoBus()).latches.divReset))
    case TakeTimaWrite => (after, MaybeByte(FirstByte(seq(n, i => Lane(lanes, i, NoBus()).latches.tima))))
    case TakeTmaWrite => (after, MaybeByte(FirstByte(seq(n, i => Lane(lanes, i, NoBus()).latches.tma))))
    case TakeTacWrite => (after, MaybePair(FirstPair(seq(n, i => Lane(lanes, i, NoBus()).latches.tac))))
    case _ => (after, Serve(Lane(lanes, 0, NoBus()), call).1)
  }

  function AddLanes(n: nat, a: seq<bv8>, b: seq<bv8>, carry: bool): (seq<bv8>, FlagBits) {
    var sum := seq(n, i => Add8(Lane(a, i, 0), Lane(b, i, 0), carry).0);
    var f := Add8(Lane(a, 0, 0), Lane(b, 0, 0), carry).1;
    (sum, f.(z := forall i :: 0 <= i < n ==> sum[i] == 0))
  }

  function SubLanes(n: nat, a: seq<bv8>, b: seq<bv8>, borrow: bool): (seq<bv8>, FlagBits) {
    var diff := seq(n, i => Sub8(Lane(a, i, 0), Lane(b, i, 0), borrow).0);
    var f := Sub8(Lane(a, 0, 0), Lane(b, 0, 0), borrow).1;
    (diff, f.(z := forall i :: 0 <= i < n ==> diff[i] == 0))
  }

  function CombineLanes(n: nat, h: seq<bv8>, l: seq<bv8>): seq<Word> {
    seq(n, i => Combined(Lane(h, i, 0), Lane(l, i, 0)))
  }

  function HighLanes(n: nat, w: seq<Word>): seq<bv8> {
    seq(n, i => HighByte(Lane(w, i, 0)))
  }

  function LowLanes(n: nat, w: seq<Word>): seq<bv8> {
    seq(n, i => LowByte(Lane(w, i, 0)))
  }

  function LogicLanes(n: nat, fn: LogicFn, a: seq<bv8>, b: seq<bv8>): seq<bv8> {
    seq(n, i => Bitwise(fn, Lane(a, i, 0), Lane(b, i, 0)))
  }

  function ReadLanes(n: nat, lanes: seq<Bus>, w: seq<Word>): seq<bv8> {
    seq(n, i => ReadByte(Lane(lanes, i, NoBus()), Lane(w, i, 0)))
  }

  function WriteLanes(n: nat, lanes: seq<Bus>, w: seq<Word>, v: seq<bv8>): seq<Bus> {
    seq(n, i => WriteByte(Lane(lanes, i, NoBus()), Lane(w, i, 0), Lane(v, i, 0)))
  }

  function LaneWord(w: seq<Word>): Word {
    Lane(w, 0, 0)
  }

  function SimdBackend(n: nat): Backend<seq<bv8>, seq<Word>, seq<bool>, seq<Bus>> {
    Backend(
      (v: bv8) => Splat(n, v), (v: seq<bv8>) => Lane(v, 0, 0),
      (w: Word) => Splat<Word>(n, w), (w: seq<Word>) => LaneWord(w),
      (h: seq<bv8>, l: seq<bv8>) => CombineLanes(n, h, l),
      (w: seq<Word>) => HighLanes(n, w), (w: seq<Word>) => LowLanes(n, w),
      (fn: LogicFn, a: seq<bv8>, b: seq<bv8>) => LogicLanes(n, fn, a, b),
      (a: seq<bv8>, b: seq<bv8>, carry: bool) => AddLanes(n, a, b, carry),
      (a: seq<bv8>, b: seq<bv8>, borrow: bool) => SubLanes(n, a, b, borrow),
      (b: bool) => Splat(n, b), (m: seq<bool>) => Lane(m, 0, false),
      (lanes: seq<Bus>, w: seq<Word>) => ReadLanes(n, lanes, w),
      (lanes: seq<Bus>, w: seq<Word>, v: seq<bv8>) => WriteLanes(n, lanes, w, v),
      (lanes: seq<Bus>, call: Call) => ServeLanes(n, lanes, call))
  }

  // ----- Each backend operation on equal lanes -----

  lemma Elementwise<T>(n: nat, s: seq<T>, x: T)
    requires |s| == n && forall i :: 0 <= i < n ==> s[i] == x
    ensures s == Splat(n, x)
  {
  }

  lemma ConvertSim(n: nat, v: bv8, w: Word, b: bool)
    requires n > 0
    ensures var k, l := ScalarBackend(), SimdBackend(n);
      && l.fromU8(v) == Splat(n, k.fromU8(v)) && l.toU8(Splat(n, v)) == k.toU8(v)
      && l.fromU16(w) == Splat(n, k.fromU16(w)) && l.toU16(Splat(n, w)) == k.toU16(w)
      && l.mask(b) == Splat(n, k.mask(b)) && l.test(Splat(n, b)) == k.test(b)
  {
  }

  lemma CombineSim(n: nat, h: bv8, l: bv8)
    ensures SimdBackend(n).combine(Splat(n, h), Splat(n, l)) == Splat(n, ScalarBackend().combine(h, l))
  {
    hide Combined;
    Elementwise(n, SimdBackend(n).combine(Splat(n, h), Splat(n, l)), Combined(h, l));
  }

  lemma SplitSim(n: nat, w: Word)
    ensures SimdBackend(n).high(Splat(n, w)) == Splat(n, ScalarBackend().high(w))
    ensures SimdBackend(n).low(Splat(n, w)) == Splat(n, ScalarBackend().low(w))
  {
    hide HighByte, LowByte;
    Elementwise(n, SimdBackend(n).high(Splat(n, w)), HighByte(w));
    Elementwise(n, SimdBackend(n).low(Splat(n, w)), LowByte(w));
  }

  lemma LogicSim(n: nat, fn: LogicFn, a: bv8, b: bv8)
    ensures SimdBackend(n).logic(fn, Splat(n, a), Splat(n, b)) == Splat(n, ScalarBackend().logic(fn, a, b))
  {
    hide Bitwise;
    Elementwise(n, SimdBackend(n).logic(fn, Splat(n, a), Splat(n, b)), Bitwise(fn, a, b));
  }

  /** The carries are taken from lane 0 and the zero flag from all lanes; equal lanes agree. */
  lemma AddSim(n: nat, a: bv8, b: bv8, carry: bool)
    requires n > 0
    ensures var (r, f) := ScalarBackend().add(a, b, carry);
      SimdBackend(n).add(Splat(n, a), Splat(n, b), carry) == (Splat(n, r), f)
  {
    hide Add8;
    var (r, f) := Add8(a, b, carry);
    var (rs, fs) := AddLanes(n, Splat(n, a), Splat(n, b), carry);
    Elementwise(n, rs, r);
    ZeroFlag(a, b, carry);
    assert fs == f by { assert rs[0] == r; }
  }

  lemma ZeroFlag(a: bv8, b: bv8, carry: bool)
    ensures Add8(a, b, carry).1.z == (Add8(a, b, carry).0 == 0)
    ensures Sub8(a, b, carry).1.z == (Sub8(a, b, carry).0 == 0)
  {
  }

  lemma SubSim(n: nat, a: bv8, b: bv8, borrow: bool)
    requires n > 0
    ensures var (r, f) := ScalarBackend().sub(a, b, borrow);
      SimdBackend(n).sub(Splat(n, a), Splat(n, b), borrow) == (Splat(n, r), f)
  {
    hide Sub8;
    var (r, f) := Sub8(a, b, borrow);
    var (rs, fs) := SubLanes(n, Splat(n, a), Splat(n, b), borrow);
    Elementwise(n, rs, r);
    ZeroFlag(a, b, borrow);
    assert fs == f by { assert rs[0] == r; }
  }

  lemma ReadSim(n: nat, m: Bus, w: Word)
    ensures SimdBackend(n).read(Splat(n, m), Splat(n, w)) == Splat(n, ScalarBackend().read(m, w))
  {
    hide ReadByte;
    Elementwise(n, SimdBackend(n).read(Splat(n, m), Splat(n, w)), ReadByte(m, w));
  }

  lemma WriteSim(n: nat, m: Bus, w: Word, v: bv8)
    ensures SimdBackend(n).write(Splat(n, m), Splat(n, w), Splat(n, v)) == Splat(n, ScalarBackend().write(m, w, v))
  {
    hide WriteByte;
    Elementwise(n, SimdBackend(n).write(Splat(n, m), Splat(n, w), Splat(n, v)), WriteByte(m, w, v));
  }

  lemma {:induction false} FirstOfEqualBytes(n: nat, lanes: seq<Option<bv8>>, x: Option<bv8>)
    requires n > 0 && |lanes| == n && forall i :: 0 <= i < n ==> lanes[i] == x
    ensures FirstByte(lanes) == x
  {
    if n > 1 { FirstOfEqualBytes(n - 1, lanes[1..], x); }
  }

  lemma {:induction false} FirstOfEqualPairs(n: nat, lanes: seq<Option<(bv8, bv8)>>, x: Option<(bv8, bv8)>)
    requires n > 0 && |lanes| == n && forall i :: 0 <= i < n ==> lanes[i] == x
    ensures FirstPair(lanes) == x
  {
    if n > 1 { FirstOfEqualPairs(n - 1, lanes[1..], x); }
  }

  lemma ServeSim(n: nat, m: Bus, call: Call)
    requires n > 0
    ensures var (m', answer) := ScalarBackend().serve(m, call);
      SimdBackend(n).serve(Splat(n, m), call) == (Splat(n, m'), answer)
  {
    hide Serve, ServeLanes, Splat;
    LanesAfter(n, m, call);
    LanesAnswer(n, m, call);
  }

  lemma LanesAfter(n: nat, m: Bus, call: Call)
    requires n > 0
    ensures ServeLanes(n, Splat(n, m), call).0 == Splat(n, Serve(m, call).0)
  {
    hide Serve, FirstByte, FirstPair;
    Elementwise(n, ServeLanes(n, Splat(n, m), call).0, Serve(m, call).0);
  }

  lemma LanesAnswer(n: nat, m: Bus, call: Call)
    requires n > 0
    ensures ServeLanes(n, Splat(n, m), call).1 == Serve(m, call).1
  {
    hide Serve, FirstByte, FirstPair;
    var lanes := Splat(n, m);
    TakenAnswers(m, call);
    match call {
      case TakeDivReset => assert Lane(lanes, 0, NoBus()).latches.divReset == m.latches.divReset;
      case TakeTimaWrite => FirstOfEqualBytes(n, seq(n, i => Lane(lanes, i, NoBus()).latches.tima), m.latches.tima);
      case TakeTmaWrite => FirstOfEqualBytes(n, seq(n, i => Lane(lanes, i, NoBus()).latches.tma), m.latches.tma);
      case TakeTacWrite => FirstOfEqualPairs(n, seq(n, i => Lane(lanes, i, NoBus()).latches.tac), m.latches.tac);
      case _ =>
    }
  }

  lemma TakenAnswers(m: Bus, call: Call)
    ensures call == TakeDivReset ==> Serve(m, call).1 == Flag(m.latches.divReset)
    ensures call == TakeTimaWrite ==> Serve(m, call).1 == MaybeByte(m.latches.tima)
    ensures call == TakeTmaWrite ==> Serve(m, call).1 == MaybeByte(m.latches.tma)
    ensures call == TakeTacWrite ==> Serve(m, call).1 == MaybePair(m.latches.tac)
  {
  }

  // ----- Lifting the machine -----

  function LiftCpu(n: nat, c: Cpu<bv8, Word, bool>): Cpu<seq<bv8>, seq<Word>, seq<bool>> {
    Cpu(Splat(n, c.a), Splat(n, c.b), Splat(n, c.c), Splat(n, c.d), Splat(n, c.e), Splat(n, c.h), Splat(n, c.l),
        Splat(n, c.x), Splat(n, c.y), Splat(n, c.sp), Splat(n, c.pc), Splat(n, c.u), Splat(n, c.v),
        Splat(n, c.fz), Splat(n, c.fn), Splat(n, c.fh), Splat(n, c.fc), c.ime, c.halted, c.pending, c.haltBug)
  }

  function Lift<D>(n: nat, m: Machine<bv8, Word, bool, Bus, D>): Machine<seq<bv8>, seq<Word>, seq<bool>, seq<Bus>, D> {
    Machine(LiftCpu(n, m.cpu), Splat(n, m.bus), m.dev, m.cycles, m.credit)
  }

  lemma GetSim(n: nat, c: Cpu<bv8, Word, bool>, r: R8, w: R16)
    ensures Get8(LiftCpu(n, c), r) == Splat(n, Get8(c, r))
    ensures Get16(LiftCpu(n, c), w) == Splat(n, Get16(c, w))
  {
    hide Splat;
  }

  lemma SetSim(n: nat, c: Cpu<bv8, Word, bool>, r: R8, v: bv8)
    ensures Set8(LiftCpu(n, c), r, Splat(n, v)) == LiftCpu(n, Set8(c, r, v))
  {
    hide Set8, Splat, LiftCpu;
    if r.Ra? || r.Rb? || r.Rc? || r.Rd? || r.Re? { SetLowSim(n, c, r, v); } else { SetHighSim(n, c, r, v); }
  }

  lemma SetLowSim(n: nat, c: Cpu<bv8, Word, bool>, r: R8, v: bv8)
    requires r.Ra? || r.Rb? || r.Rc? || r.Rd? || r.Re?
    ensures Set8(LiftCpu(n, c), r, Splat(n, v)) == LiftCpu(n, Set8(c, r, v))
  {
    hide Splat;
    match r {
      case Ra => assert Set8(c, r, v) == c.(a := v);
      case Rb => assert Set8(c, r, v) == c.(b := v);
      case Rc => assert Set8(c, r, v) == c.(c := v);
      case Rd => assert Set8(c, r, v) == c.(d := v);
      case Re => assert Set8(c, r, v) == c.(e := v);
    }
  }

  lemma SetHighSim(n: nat, c: Cpu<bv8, Word, bool>, r: R8, v: bv8)
    requires r.Rh? || r.Rl? || r.Rx? || r.Ry?
    ensures Set8(LiftCpu(n, c), r, Splat(n, v)) == LiftCpu(n, Set8(c, r, v))
  {
    hide Splat;
    match r {
      case Rh => assert Set8(c, r, v) == c.(h := v);
      case Rl => assert Set8(c, r, v) == c.(l := v);
      case Rx => assert Set8(c, r, v) == c.(x := v);
      case Ry => assert Set8(c, r, v) == c.(y := v);
    }
  }

  lemma Set16Sim(n: nat, c: Cpu<bv8, Word, bool>, r: R16, v: Word)
    ensures Set16(LiftCpu(n, c), r, Splat(n, v)) == LiftCpu(n, Set16(c, r, v))
  {
    hide Splat;
    match r {
      case Wsp => assert Set16(c, r, v) == c.(sp := v);
      case Wpc => assert Set16(c, r, v) == c.(pc := v);
      case Wu => assert Set16(c, r, v) == c.(u := v);
      case Wv => assert Set16(c, r, v) == c.(v := v);
    }
  }

  lemma MaskSim(n: nat, b: bool)
    requires n > 0
    ensures SimdBackend(n).mask(b) == Splat(n, ScalarBackend().mask(b))
    ensures SimdBackend(n).test(Splat(n, b)) == ScalarBackend().test(b)
  {
    hide SimdBackend, ScalarBackend, Splat;
    ConvertSim(n, 0, 0, b);
  }

  lemma FlagsSim(n: nat, c: Cpu<bv8, Word, bool>)
    requires n > 0
    ensures Flags(SimdBackend(n), LiftCpu(n, c)) == Flags(ScalarBackend(), c)
  {
    hide Splat, ScalarBackend, SimdBackend;
    MaskSim(n, c.fz);
    MaskSim(n, c.fn);
    MaskSim(n, c.fh);
    MaskSim(n, c.fc);
  }

  lemma WithFlagsSim(n: nat, c: Cpu<bv8, Word, bool>, f: FlagBits)
    requires n > 0
    ensures WithFlags(SimdBackend(n), LiftCpu(n, c), f) == LiftCpu(n, WithFlags(ScalarBackend(), c, f))
  {
    hide Splat, ScalarBackend, SimdBackend;
    MaskSim(n, f.z);
    MaskSim(n, f.n);
    MaskSim(n, f.h);
    MaskSim(n, f.c);
  }
}
