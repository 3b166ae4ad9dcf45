/**
 The vector backend on lanes that need not be equal: every lane gets the scalar result of its own
 operands, flags and answers come from where the source takes them, and nothing crosses lanes.
 */
module LaneWise {
  import opened RingLayout
  import opened MemoryBus
  import opened Core
  import opened Lanes

  /** Sums and differences lane by lane; the carries are lane 0's, and Z says that every lane is zero. */
  lemma SumsPerLane(n: nat, a: seq<bv8>, b: seq<bv8>, carry: bool, i: nat)
    requires |a| == |b| == n && i < n
    ensures var (r, f) := SimdBackend(n).add(a, b, carry);
      && |r| == n && r[i] == Add8(a[i], b[i], carry).0
      && (f.z ==> r[i] == 0) && (!f.z ==> exists j :: 0 <= j < n && r[j] != 0)
      && !f.n && f.h == Add8(a[0], b[0], carry).1.h && f.c == Add8(a[0], b[0], carry).1.c
    ensures var (r, f) := SimdBackend(n).sub(a, b, carry);
      && |r| == n && r[i] == Sub8(a[i], b[i], carry).0
      && (f.z ==> r[i] == 0) && (!f.z ==> exists j :: 0 <= j < n && r[j] != 0)
      && f.n && f.h == Sub8(a[0], b[0], carry).1.h && f.c == Sub8(a[0], b[0], carry).1.c
  {
    hide Add8, Sub8;
    NFlag(a[0], b[0], carry);
    assert Lane(a, i, 0) == a[i] && Lane(b, i, 0) == b[i] && Lane(a, 0, 0) == a[0] && Lane(b, 0, 0) == b[0];
  }

  lemma NFlag(a: bv8, b: bv8, carry: bool)
    ensures !Add8(a, b, carry).1.n && Sub8(a, b, carry).1.n
  {
  }

  /** Logic lane by lane, */
  lemma LogicPerLane(n: nat, fn: LogicFn, a: seq<bv8>, b: seq<bv8>, i: nat)
    requires |a| == |b| == n && i < n
    ensures var r := SimdBackend(n).logic(fn, a, b); |r| == n && r[i] == ScalarBackend().logic(fn, a[i], b[i])
  {
    hide Bitwise;
  }

  /** and joining and splitting. */
  lemma BytesPerLane(n: nat, a: seq<bv8>, b: seq<bv8>, i: nat)
    requires |a| == |b| == n && i < n
    ensures var w := SimdBackend(n).combine(a, b);
      && |w| == n && w[i] == a[i] as nat * 0x100 + b[i] as nat
      && SimdBackend(n).high(w)[i] == a[i] && SimdBackend(n).low(w)[i] == b[i]
  {
    hide HighByte, LowByte, Combined;
    HalvesFromWord(a[i], b[i], a[i] as nat, b[i] as nat);
    var w := SimdBackend(n).combine(a, b);
    assert w[i] == Combined(a[i], b[i]);
    assert SimdBackend(n).high(w)[i] == HighByte(w[i]) && SimdBackend(n).low(w)[i] == LowByte(w[i]);
    JoinedIs(a[i], b[i]);
  }

  lemma JoinedIs(h: bv8, l: bv8)
    ensures Combined(h, l) == h as nat * 0x100 + l as nat
  {
  }

  /** Every lane reads and writes its own memory at its own address. */
  lemma MemoryPerLane(n: nat, lanes: seq<Bus>, w: seq<Word>, v: seq<bv8>, i: nat)
    requires |lanes| == |w| == |v| == n && i < n
    ensures var r := SimdBackend(n).read(lanes, w); |r| == n && r[i] == ReadByte(lanes[i], w[i])
    ensures var m := SimdBackend(n).write(lanes, w, v); |m| == n && m[i] == WriteByte(lanes[i], w[i], v[i])
  {
    hide ReadByte, WriteByte;
  }

  /** A peripheral's call reaches every lane, and what it reads is lane 0's; */
  lemma CallsPerLane(n: nat, lanes: seq<Bus>, call: Call, i: nat)
    requires |lanes| == n && i < n
    ensures var (m, answer) := SimdBackend(n).serve(lanes, call);
      && |m| == n && m[i] == Serve(lanes[i], call).0
      && (!(call.TakeDivReset? || call.TakeTimaWrite? || call.TakeTmaWrite? || call.TakeTacWrite?) ==>
            answer == Serve(lanes[0], call).1)
  {
    hide Serve, FirstByte, FirstPair;
    assert Lane(lanes, i, NoBus()) == lanes[i] && Lane(lanes, 0, NoBus()) == lanes[0];
  }

  /** a divider reset is reported exactly if some lane saw one. */
  lemma ResetOfAnyLane(n: nat, lanes: seq<Bus>)
    requires |lanes| == n
    ensures SimdBackend(n).serve(lanes, TakeDivReset).1 == Flag(exists j :: 0 <= j < n && lanes[j].latches.divReset)
  {
    hide Serve, FirstByte, FirstPair;
    forall j | 0 <= j < n ensures Lane(lanes, j, NoBus()) == lanes[j] {
    }
  }

  /** The first lane with a write waiting. */
  ghost predicate FirstWaiting<T>(lanes: seq<Option<T>>, i: nat) {
    i < |lanes| && lanes[i].Some? && forall j :: 0 <= j < i ==> lanes[j].None?
  }

  lemma {:induction false} FirstByteIs(lanes: seq<Option<bv8>>, i: nat)
    requires FirstWaiting(lanes, i)
    ensures FirstByte(lanes) == lanes[i]
    decreases i
  {
    if i > 0 {
      assert FirstWaiting(lanes[1..], i - 1);
      FirstByteIs(lanes[1..], i - 1);
    }
  }

  lemma {:induction false} FirstPairIs(lanes: seq<Option<(bv8, bv8)>>, i: nat)
    requires FirstWaiting(lanes, i)
    ensures FirstPair(lanes) == lanes[i]
    decreases i
  {
    if i > 0 {
      assert FirstWaiting(lanes[1..], i - 1);
      FirstPairIs(lanes[1..], i - 1);
    }
  }

  lemma {:induction false} NoByte(lanes: seq<Option<bv8>>)
    requires forall j :: 0 <= j < |lanes| ==> lanes[j].None?
    ensures FirstByte(lanes) == None
  {
    if lanes != [] { NoByte(lanes[1..]); }
  }

  lemma {:induction false} NoPair(lanes: seq<Option<(bv8, bv8)>>)
    requires forall j :: 0 <= j < |lanes| ==> lanes[j].None?
    ensures FirstPair(lanes) == None
  {
    if lanes != [] { NoPair(lanes[1..]); }
  }

  function Timas(lanes: seq<Bus>): seq<Option<bv8>> {
    seq(|lanes|, i requires 0 <= i < |lanes| => lanes[i].latches.tima)
  }

  function Tmas(lanes: seq<Bus>): seq<Option<bv8>> {
    seq(|lanes|, i requires 0 <= i < |lanes| => lanes[i].latches.tma)
  }

  function Tacs(lanes: seq<Bus>): seq<Option<(bv8, bv8)>> {
    seq(|lanes|, i requires 0 <= i < |lanes| => lanes[i].latches.tac)
  }

  /** Of several lanes' latched writes the first lane's is taken, and none if no lane has one. */
  lemma TimaLatch(n: nat, lanes: seq<Bus>, i: nat)
    requires |lanes| == n
    ensures FirstWaiting(Timas(lanes), i) ==>
      SimdBackend(n).serve(lanes, TakeTimaWrite).1 == MaybeByte(lanes[i].latches.tima)
    ensures (forall j :: 0 <= j < n ==> Timas(lanes)[j].None?) ==>
      SimdBackend(n).serve(lanes, TakeTimaWrite).1 == MaybeByte(None)
  {
    hide Serve, FirstByte, FirstPair;
    assert seq(n, i => Lane(lanes, i, NoBus()).latches.tima) == Timas(lanes);
    if FirstWaiting(Timas(lanes), i) { FirstByteIs(Timas(lanes), i); }
    if forall j :: 0 <= j < n ==> Timas(lanes)[j].None? { NoByte(Timas(lanes)); }
  }

  lemma TmaLatch(n: nat, lanes: seq<Bus>, i: nat)
    requires |lanes| == n
    ensures FirstWaiting(Tmas(lanes), i) ==>
      SimdBackend(n).serve(lanes, TakeTmaWrite).1 == MaybeByte(lanes[i].latches.tma)
    ensures (forall j :: 0 <= j < n ==> Tmas(lanes)[j].None?) ==>
      SimdBackend(n).serve(lanes, TakeTmaWrite).1 == MaybeByte(None)
  {
    hide Serve, FirstByte, FirstPair;
    assert seq(n, i => Lane(lanes, i, NoBus()).latches.tma) == Tmas(lanes);
    if FirstWaiting(Tmas(lanes), i) { FirstByteIs(Tmas(lanes), i); }
    if forall j :: 0 <= j < n ==> Tmas(lanes)[j].None? { NoByte(Tmas(lanes)); }
  }

  lemma TacLatch(n: nat, lanes: seq<Bus>, i: nat)
    requires |lanes| == n
    ensures FirstWaiting(Tacs(lanes), i) ==>
      SimdBackend(n).serve(lanes, TakeTacWrite).1 == MaybePair(lanes[i].latches.tac)
    ensures (forall j :: 0 <= j < n ==> Tacs(lanes)[j].None?) ==>
      SimdBackend(n).serve(lanes, TakeTacWrite).1 == MaybePair(None)
  {
    hide Serve, FirstByte, FirstPair;
    assert seq(n, i => Lane(lanes, i, NoBus()).latches.tac) == Tacs(lanes);
    if FirstWaiting(Tacs(lanes), i) { FirstPairIs(Tacs(lanes), i); }
    if forall j :: 0 <= j < n ==> Tacs(lanes)[j].None? { NoPair(Tacs(lanes)); }
  }
}
