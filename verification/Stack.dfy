/**
 The stack: what the push and pop sequences of the instruction bodies do to memory and registers, and
 that a pop takes back what a push put into work RAM.
 */
module Stack {
  import opened MemoryBus
  import opened Core
  import opened Instructions
  import opened Lanes
  import opened Lockstep

  lemma RunDo<D>(p: Device<D>, m: Scalar<D>, op: Op, next: Prog)
    ensures Run(ScalarBackend(), p, m, Do(op, next)) == Run(ScalarBackend(), p, Exec(ScalarBackend(), p, m, op), next)
  {
    hide Exec, ScalarBackend;
  }

  lemma OffsetRuns<D>(p: Device<D>, m: Scalar<D>, dst: R16, src: R16, delta: Word)
    ensures Exec(ScalarBackend(), p, m, Offset(dst, src, delta))
         == m.(cpu := Set16(m.cpu, dst, WordAdd(Get16(m.cpu, src), delta)))
  {
    hide Set16, Get16;
  }

  lemma StoreRuns<D>(p: Device<D>, m: Scalar<D>, addr: R16, src: R8)
    ensures Exec(ScalarBackend(), p, m, BareStore(addr, src))
         == m.(bus := WriteByte(m.bus, Get16(m.cpu, addr), Get8(m.cpu, src)))
  {
    hide Get8, Get16, WriteByte;
  }

  lemma LoadRuns<D>(p: Device<D>, m: Scalar<D>, dst: R8, addr: R16)
    ensures Exec(ScalarBackend(), p, m, BareLoad(dst, addr))
         == m.(cpu := Set8(m.cpu, dst, ReadByte(m.bus, Get16(m.cpu, addr))))
  {
    hide Set8, Get16, ReadByte;
  }

  lemma CopyRuns<D>(p: Device<D>, m: Scalar<D>, dst: R16, src: R16)
    ensures Exec(ScalarBackend(), p, m, Copy16(dst, src)) == m.(cpu := Set16(m.cpu, dst, Get16(m.cpu, src)))
  {
    hide Set16, Get16;
  }

  lemma JoinRuns<D>(p: Device<D>, m: Scalar<D>, dst: R16, hi: R8, lo: R8)
    ensures Exec(ScalarBackend(), p, m, Join(dst, hi, lo))
         == m.(cpu := Set16(m.cpu, dst, Combined(Get8(m.cpu, hi), Get8(m.cpu, lo))))
  {
    hide Set16, Get8, Combined;
  }

  /** The machine after a push of the scratch bytes. */
  function Pushed<D>(m: Scalar<D>): Scalar<D> {
    var first := WordAdd(m.cpu.sp, 0xFFFF);
    var second := WordAdd(first, 0xFFFF);
    m.(bus := WriteByte(WriteByte(m.bus, first, m.cpu.x), second, m.cpu.y), cpu := m.cpu.(u := second, sp := second))
  }

  lemma PushRuns<D>(p: Device<D>, m: Scalar<D>, next: Prog)
    ensures Run(ScalarBackend(), p, m, Push(next)) == Run(ScalarBackend(), p, Pushed(m), next)
  {
    hide Run, Exec, ScalarBackend, WriteByte, WordAdd, Slack, Priced;
    var first := WordAdd(m.cpu.sp, 0xFFFF);
    var second := WordAdd(first, 0xFFFF);
    var m1 := m.(cpu := m.cpu.(u := first));
    var m2 := m1.(bus := WriteByte(m.bus, first, m.cpu.x));
    var m3 := m2.(cpu := m2.cpu.(u := second));
    var m4 := m3.(bus := WriteByte(m2.bus, second, m.cpu.y));
    OffsetRuns(p, m, Wu, Wsp, 0xFFFF);
    StoreRuns(p, m1, Wu, Rx);
    OffsetRuns(p, m2, Wu, Wu, 0xFFFF);
    StoreRuns(p, m3, Wu, Ry);
    CopyRuns(p, m4, Wsp, Wu);
    var p4 := Then(Copy16(Wsp, Wu), next);
    var p3 := Then(BareStore(Wu, Ry), p4);
    var p2 := Then(Offset(Wu, Wu, 0xFFFF), p3);
    var p1 := Then(BareStore(Wu, Rx), p2);
    RunDo(p, m, Offset(Wu, Wsp, 0xFFFF), p1);
    RunDo(p, m1, BareStore(Wu, Rx), p2);
    RunDo(p, m2, Offset(Wu, Wu, 0xFFFF), p3);
    RunDo(p, m3, BareStore(Wu, Ry), p4);
    RunDo(p, m4, Copy16(Wsp, Wu), next);
  }

  /** The machine after a pop into scratch word V. */
  function Popped<D>(m: Scalar<D>): Scalar<D> {
    var first := WordAdd(m.cpu.sp, 0);
    var second := WordAdd(first, 1);
    var lo, hi := ReadByte(m.bus, first), ReadByte(m.bus, second);
    m.(cpu := m.cpu.(u := second, x := lo, y := hi, sp := WordAdd(second, 1), v := Combined(hi, lo)))
  }

  lemma PopRuns<D>(p: Device<D>, m: Scalar<D>, next: Prog)
    ensures Run(ScalarBackend(), p, m, Pop(next)) == Run(ScalarBackend(), p, Popped(m), next)
  {
    hide Run, Exec, ScalarBackend, ReadByte, WordAdd, Combined, Slack, Priced;
    var first := WordAdd(m.cpu.sp, 0);
    var second := WordAdd(first, 1);
    var m1 := m.(cpu := m.cpu.(u := first));
    var m2 := m1.(cpu := m1.cpu.(x := ReadByte(m.bus, first)));
    var m3 := m2.(cpu := m2.cpu.(u := second));
    var m4 := m3.(cpu := m3.cpu.(y := ReadByte(m.bus, second)));
    var m5 := m4.(cpu := m4.cpu.(sp := WordAdd(second, 1)));
    OffsetRuns(p, m, Wu, Wsp, 0);
    LoadRuns(p, m1, Rx, Wu);
    OffsetRuns(p, m2, Wu, Wu, 1);
    LoadRuns(p, m3, Ry, Wu);
    OffsetRuns(p, m4, Wsp, Wu, 1);
    JoinRuns(p, m5, Wv, Ry, Rx);
    var p5 := Then(Join(Wv, Ry, Rx), next);
    var p4 := Then(Offset(Wsp, Wu, 1), p5);
    var p3 := Then(BareLoad(Ry, Wu), p4);
    var p2 := Then(Offset(Wu, Wu, 1), p3);
    var p1 := Then(BareLoad(Rx, Wu), p2);
    RunDo(p, m, Offset(Wu, Wsp, 0), p1);
    RunDo(p, m1, BareLoad(Rx, Wu), p2);
    RunDo(p, m2, Offset(Wu, Wu, 1), p3);
    RunDo(p, m3, BareLoad(Ry, Wu), p4);
    RunDo(p, m4, Offset(Wsp, Wu, 1), p5);
    RunDo(p, m5, Join(Wv, Ry, Rx), next);
  }

  /** Work RAM holds what is written to it, cell by cell. */
  lemma RamHolds(m: Bus, a: Word, b: Word, x: bv8, y: bv8)
    requires 0xC000 <= a < 0xE000 && 0xC000 <= b < 0xE000 && a != b
    ensures var m' := WriteByte(WriteByte(m, a, x), b, y);
      ReadByte(m', a) == x && ReadByte(m', b) == y
  {
    hide WriteHigh, ReadHigh, BankFor, RomByte;
  }

  /** A push followed by a pop brings back the word and the stack pointer, takes no time of its own,
      and leaves the registers alone, wherever in work RAM the stack is. */
  lemma PopTakesBackPush<D>(p: Device<D>, m: Scalar<D>)
    requires 0xC002 <= m.cpu.sp <= 0xE000
    ensures var (r, _) := Run(ScalarBackend(), p, m, Push(Pop(End(4))));
      && r.cpu.v == Combined(m.cpu.x, m.cpu.y) && r.cpu.sp == m.cpu.sp && r.cycles == m.cycles
      && r.cpu == m.cpu.(u := r.cpu.u, v := r.cpu.v, x := m.cpu.y, y := m.cpu.x)
  {
    hide ScalarBackend, WriteByte, ReadByte, Combined, Slack, Priced, Push, Pop;
    PushRuns(p, m, Pop(End(4)));
    PopRuns(p, Pushed(m), End(4));
    var sp := m.cpu.sp;
    StackMoves(sp);
    RamHolds(m.bus, sp - 1, sp - 2, m.cpu.x, m.cpu.y);
  }

  lemma StackMoves(sp: Word)
    requires 0xC002 <= sp <= 0xE000
    ensures WordAdd(sp, 0xFFFF) == sp - 1 && WordAdd(sp - 1, 0xFFFF) == sp - 2
    ensures WordAdd(sp - 2, 0) == sp - 2 && WordAdd(sp - 2, 1) == sp - 1 && WordAdd(sp - 1, 1) == sp
  {
  }
}
