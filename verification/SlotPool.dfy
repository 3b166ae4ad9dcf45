/**
 A pool of slots whose indices circulate: free ring, producer, ready ring, consumer, free
 ring. Proved: whoever holds an index, every index is somewhere exactly once, so a full ring
 is never met.
 */
module SlotPool {
  import opened Bytes
  import opened RingLayout
  import opened IndexRing
  import opened Arithmetic

  const SLOT_ALIGNMENT := 64

  // ----- Where the indices are -----

  /** Free, with the producer, ready, with the consumer: together every index once. */
  ghost predicate Partition(n: nat, free: seq<nat>, p: seq<nat>, ready: seq<nat>, c: seq<nat>) {
    multiset(free) + multiset(p) + multiset(ready) + multiset(c) == multiset(Indices(n))
  }

  lemma {:induction false} IndicesOnce(n: nat, x: nat)
    ensures multiset(Indices(n))[x] == if x < n then 1 else 0
  {
    if n > 0 {
      IndicesOnce(n - 1, x);
      assert Indices(n) == Indices(n - 1) + [n - 1];
    }
  }

  lemma PartitionCounts(n: nat, free: seq<nat>, p: seq<nat>, ready: seq<nat>, c: seq<nat>)
    requires Partition(n, free, p, ready, c)
    ensures |free| + |p| + |ready| + |c| == n
  {
    assert |multiset(free) + multiset(p) + multiset(ready) + multiset(c)| == |free| + |p| + |ready| + |c|;
    assert |multiset(Indices(n))| == n;
  }

  /** No index is in two places, and no place has one twice. */
  lemma PartitionOnce(n: nat, free: seq<nat>, p: seq<nat>, ready: seq<nat>, c: seq<nat>, x: nat)
    requires Partition(n, free, p, ready, c)
    ensures multiset(free)[x] + multiset(p)[x] + multiset(ready)[x] + multiset(c)[x] == if x < n then 1 else 0
  {
    IndicesOnce(n, x);
    assert (multiset(free) + multiset(p) + multiset(ready) + multiset(c))[x]
        == multiset(free)[x] + multiset(p)[x] + multiset(ready)[x] + multiset(c)[x];
  }

  lemma TakeFirst<T>(q: seq<T>)
    requires q != []
    ensures multiset(q) == multiset{q[0]} + multiset(q[1..])
  {
    assert q == [q[0]] + q[1..];
  }

  /** The sequence without the element at `i`. */
  function Without<T>(s: seq<T>, i: nat): seq<T>
    requires i < |s|
  {
    s[..i] + s[i + 1..]
  }

  lemma WithoutOne<T>(s: seq<T>, i: nat)
    requires i < |s|
    ensures multiset(s) == multiset(Without(s, i)) + multiset{s[i]}
  {
    assert s == s[..i] + [s[i]] + s[i + 1..];
  }

  // ----- Every run of a producer and a consumer that push only what they hold -----

  datatype Pool = Pool(free: Ring, ready: Ring)

  /** The pool and what each side has in hand; `stalls` counts pushes that met a full ring. */
  datatype State = State(pool: Pool, producer: seq<nat>, consumer: seq<nat>, stalls: nat)

  /** `GiveBack` is the producer returning a slot it could not use; positions index the hand. */
  datatype Action = Acquire | PushReady(i: nat) | GiveBack(i: nat) | PopReady | Release(i: nat)

  function Start(n: nat): State {
    State(Pool(Filled(n), NewRing(n)), [], [], 0)
  }

  function Next(s: State, a: Action): State {
    match a
    case Acquire =>
      (match PopFrom(s.pool.free)
       case None => s
       case Some((x, free)) => s.(pool := s.pool.(free := free), producer := s.producer + [x]))
    case PushReady(i) =>
      if i >= |s.producer| then s
      else (match PushTo(s.pool.ready, s.producer[i])
            case None => s.(stalls := s.stalls + 1)
            case Some(ready) => s.(pool := s.pool.(ready := ready), producer := Without(s.producer, i)))
    case GiveBack(i) =>
      if i >= |s.producer| then s
      else (match PushTo(s.pool.free, s.producer[i])
            case None => s.(stalls := s.stalls + 1)
            case Some(free) => s.(pool := s.pool.(free := free), producer := Without(s.producer, i)))
    case PopReady =>
      (match PopFrom(s.pool.ready)
       case None => s
       case Some((x, ready)) => s.(pool := s.pool.(ready := ready), consumer := s.consumer + [x]))
    case Release(i) =>
      if i >= |s.consumer| then s
      else (match PushTo(s.pool.free, s.consumer[i])
            case None => s.(stalls := s.stalls + 1)
            case Some(free) => s.(pool := s.pool.(free := free), consumer := Without(s.consumer, i)))
  }

  ghost function Run(n: nat, actions: seq<Action>): State
    decreases |actions|
  {
    if actions == [] then Start(n) else Next(Run(n, actions[..|actions| - 1]), actions[|actions| - 1])
  }

  /** The two rings hold `free` and `ready` after `fOut` and `rOut` pops. */
  ghost predicate PoolInv(n: nat, pool: Pool, fOut: nat, free: seq<nat>, rOut: nat, ready: seq<nat>) {
    && 0 < n < U32_LIMIT
    && Refines(n, pool.free, fOut, free)
    && Refines(n, pool.ready, rOut, ready)
  }

  /** Neither counter has wrapped, or wrapping is harmless. */
  predicate Safe(n: nat, pushes: nat) {
    n > 0 && (U32_LIMIT % n == 0 || pushes < U32_LIMIT)
  }

  ghost predicate StateInv(n: nat, s: State, fOut: nat, free: seq<nat>, rOut: nat, ready: seq<nat>) {
    && PoolInv(n, s.pool, fOut, free, rOut, ready)
    && Partition(n, free, s.producer, ready, s.consumer)
    && s.stalls == 0
  }

  lemma PushKeeps(n: nat, ring: Ring, out: nat, q: seq<nat>, x: nat)
    requires Refines(n, ring, out, q) && |q| < n && Safe(n, out + |q|)
    ensures PushTo(ring, x).Some? && Refines(n, PushTo(ring, x).value, out, q + [x])
  {
    hide Refines, Cell;
    PushRefines(n, ring, out, q, x);
  }

  lemma PopKeeps(n: nat, ring: Ring, out: nat, q: seq<nat>)
    requires Refines(n, ring, out, q)
    ensures q == [] ==> PopFrom(ring).None?
    ensures q != [] ==>
      (PopFrom(ring).Some? && PopFrom(ring).value.0 == q[0] && Refines(n, PopFrom(ring).value.1, out + 1, q[1..]))
  {
    hide Refines, Cell;
    PopRefines(n, ring, out, q);
  }

  lemma AcquireKeeps(n: nat, s: State, fOut: nat, free: seq<nat>, rOut: nat, ready: seq<nat>)
    requires StateInv(n, s, fOut, free, rOut, ready)
    ensures free == [] ==> Next(s, Acquire) == s
    ensures free != [] ==> StateInv(n, Next(s, Acquire), fOut + 1, free[1..], rOut, ready)
  {
    hide Refines, Indices, PopFrom;
    PopKeeps(n, s.pool.free, fOut, free);
    if free != [] { TakeFirst(free); }
  }

  lemma PopReadyKeeps(n: nat, s: State, fOut: nat, free: seq<nat>, rOut: nat, ready: seq<nat>)
    requires StateInv(n, s, fOut, free, rOut, ready)
    ensures ready == [] ==> Next(s, PopReady) == s
    ensures ready != [] ==> StateInv(n, Next(s, PopReady), fOut, free, rOut + 1, ready[1..])
  {
    hide Refines, Indices, PopFrom;
    PopKeeps(n, s.pool.ready, rOut, ready);
    if ready != [] { TakeFirst(ready); }
  }

  lemma PushReadyKeeps(n: nat, s: State, fOut: nat, free: seq<nat>, rOut: nat, ready: seq<nat>, i: nat)
    requires StateInv(n, s, fOut, free, rOut, ready) && i < |s.producer| && Safe(n, rOut + |ready|)
    ensures StateInv(n, Next(s, PushReady(i)), fOut, free, rOut, ready + [s.producer[i]])
  {
    hide Refines, Indices, PushTo, Without;
    PartitionCounts(n, free, s.producer, ready, s.consumer);
    PushKeeps(n, s.pool.ready, rOut, ready, s.producer[i]);
    WithoutOne(s.producer, i);
  }

  lemma GiveBackKeeps(n: nat, s: State, fOut: nat, free: seq<nat>, rOut: nat, ready: seq<nat>, i: nat)
    requires StateInv(n, s, fOut, free, rOut, ready) && i < |s.producer| && Safe(n, fOut + |free|)
    ensures StateInv(n, Next(s, GiveBack(i)), fOut, free + [s.producer[i]], rOut, ready)
  {
    hide Refines, Indices, PushTo, Without;
    PartitionCounts(n, free, s.producer, ready, s.consumer);
    PushKeeps(n, s.pool.free, fOut, free, s.producer[i]);
    WithoutOne(s.producer, i);
  }

  lemma ReleaseKeeps(n: nat, s: State, fOut: nat, free: seq<nat>, rOut: nat, ready: seq<nat>, i: nat)
    requires StateInv(n, s, fOut, free, rOut, ready) && i < |s.consumer| && Safe(n, fOut + |free|)
    ensures StateInv(n, Next(s, Release(i)), fOut, free + [s.consumer[i]], rOut, ready)
  {
    hide Refines, Indices, PushTo, Without;
    PartitionCounts(n, free, s.producer, ready, s.consumer);
    PushKeeps(n, s.pool.free, fOut, free, s.consumer[i]);
    WithoutOne(s.consumer, i);
  }

  /** One action, with the pushes made so far bounded by `bound` before it. */
  lemma NextKeeps(n: nat, s: State, fOut: nat, free: seq<nat>, rOut: nat, ready: seq<nat>, a: Action, bound: nat)
    returns (fOut': nat, free': seq<nat>, rOut': nat, ready': seq<nat>)
    requires StateInv(n, s, fOut, free, rOut, ready) && Safe(n, bound)
    requires fOut + |free| <= bound && rOut + |ready| <= bound
    ensures StateInv(n, Next(s, a), fOut', free', rOut', ready')
    ensures fOut' + |free'| <= bound + 1 && rOut' + |ready'| <= bound + 1
  {
    hide StateInv, Next;
    fOut', free', rOut', ready' := fOut, free, rOut, ready;
    match a
    case Acquire =>
      AcquireKeeps(n, s, fOut, free, rOut, ready);
      if free != [] { fOut', free' := fOut + 1, free[1..]; }
    case PopReady =>
      PopReadyKeeps(n, s, fOut, free, rOut, ready);
      if ready != [] { rOut', ready' := rOut + 1, ready[1..]; }
    case PushReady(i) =>
      EmptyHand(s, i);
      if i < |s.producer| {
        PushReadyKeeps(n, s, fOut, free, rOut, ready, i);
        ready' := ready + [s.producer[i]];
      }
    case GiveBack(i) =>
      EmptyHand(s, i);
      if i < |s.producer| {
        GiveBackKeeps(n, s, fOut, free, rOut, ready, i);
        free' := free + [s.producer[i]];
      }
    case Release(i) =>
      EmptyHand(s, i);
      if i < |s.consumer| {
        ReleaseKeeps(n, s, fOut, free, rOut, ready, i);
        free' := free + [s.consumer[i]];
      }
  }

  lemma EmptyHand(s: State, i: nat)
    ensures i >= |s.producer| ==> Next(s, PushReady(i)) == Next(s, GiveBack(i)) == s
    ensures i >= |s.consumer| ==> Next(s, Release(i)) == s
  {
  }

  lemma {:induction false} RunKeeps(n: nat, actions: seq<Action>)
    returns (fOut: nat, free: seq<nat>, rOut: nat, ready: seq<nat>)
    requires 0 < n < U32_LIMIT && Safe(n, n + |actions|)
    ensures StateInv(n, Run(n, actions), fOut, free, rOut, ready)
    ensures fOut + |free| <= n + |actions| && rOut + |ready| <= n + |actions|
    decreases |actions|
  {
    hide StateInv, Next;
    if actions == [] {
      StartKeeps(n);
      fOut, free, rOut, ready := 0, Indices(n), 0, [];
    } else {
      var before, a := actions[..|actions| - 1], actions[|actions| - 1];
      fOut, free, rOut, ready := RunKeeps(n, before);
      fOut, free, rOut, ready := NextKeeps(n, Run(n, before), fOut, free, rOut, ready, a, n + |before|);
    }
  }

  lemma StartKeeps(n: nat)
    requires 0 < n < U32_LIMIT
    ensures StateInv(n, Start(n), 0, Indices(n), 0, [])
  {
    hide Indices, Refines;
    FilledRefines(n);
    NewRefines(n);
    assert After(n, []) == NewRing(n);
  }

  /** The indices queued in a ring, read off its cells. */
  ghost function Contents(n: nat, ring: Ring): seq<nat>
    requires Shaped(n, ring)
    decreases WrappingSub(ring.head, ring.tail)
  {
    match PopFrom(ring)
    case None => []
    case Some((x, rest)) =>
      if WrappingSub(rest.head, rest.tail) < WrappingSub(ring.head, ring.tail)
      then [x] + Contents(n, rest) else []
  }

  lemma {:induction false} ContentsAre(n: nat, ring: Ring, out: nat, q: seq<nat>)
    requires Refines(n, ring, out, q)
    ensures Shaped(n, ring) && Contents(n, ring) == q
    decreases |q|
  {
    PopKeeps(n, ring, out, q);
    CountersTell(out, |q|);
    if q != [] {
      var rest := PopFrom(ring).value.1;
      CountersTell(out + 1, |q| - 1);
      ContentsAre(n, rest, out + 1, q[1..]);
    }
  }

  /** Slot conservation: after any run in which each side pushes only what it holds, the free
      ring, the producer, the ready ring and the consumer share out all indices without
      repetition, and no push has ever met a full ring. The capacity divides 2^32, or the run is
      short enough for no counter to wrap. */
  lemma SlotsAreConserved(n: nat, actions: seq<Action>)
    requires 0 < n < U32_LIMIT && Safe(n, n + |actions|)
    ensures var s := Run(n, actions);
      && Shaped(n, s.pool.free) && Shaped(n, s.pool.ready)
      && Partition(n, Contents(n, s.pool.free), s.producer, Contents(n, s.pool.ready), s.consumer)
      && s.stalls == 0
  {
    hide Run, Refines, Partition, Contents, Shaped;
    var fOut, free, rOut, ready := RunKeeps(n, actions);
    var s := Run(n, actions);
    ContentsAre(n, s.pool.free, fOut, free);
    ContentsAre(n, s.pool.ready, rOut, ready);
  }

  // ----- The capacities for which conservation holds over every run -----

  ghost predicate Conserved(n: nat, s: State) {
    && Shaped(n, s.pool.free) && Shaped(n, s.pool.ready)
    && Partition(n, Contents(n, s.pool.free), s.producer, Contents(n, s.pool.ready), s.consumer)
    && s.stalls == 0
  }

  /** `k` times: take a slot and give it back. */
  ghost function Cycle(k: nat): seq<Action> {
    if k == 0 then [] else Cycle(k - 1) + [Acquire] + [GiveBack(0)]
  }

  lemma RunSnoc(n: nat, actions: seq<Action>, a: Action)
    ensures Run(n, actions + [a]) == Next(Run(n, actions), a)
  {
    hide Next;
    assert (actions + [a])[..|actions|] == actions;
  }

  /** Each cycle moves both counters of the free ring by one. */
  lemma {:induction false} CycleTurns(n: nat, k: nat) returns (free: seq<nat>)
    requires 0 < n < U32_LIMIT && n + k <= U32_LIMIT
    ensures StateInv(n, Run(n, Cycle(k)), k, free, 0, []) && |free| == n
    ensures Run(n, Cycle(k)).producer == Run(n, Cycle(k)).consumer == []
  {
    hide Next, StateInv, Run;
    if k == 0 {
      StartKeeps(n);
      free := Indices(n);
      assert Run(n, []) == Start(n) by { RunNothing(n); }
    } else {
      var before := Cycle(k - 1);
      free := CycleTurns(n, k - 1);
      RunSnoc(n, before, Acquire);
      RunSnoc(n, before + [Acquire], GiveBack(0));
      OneCycle(n, Run(n, before), k - 1, free);
      free := free[1..] + [free[0]];
    }
  }

  lemma RunNothing(n: nat)
    ensures Run(n, []) == Start(n)
  {
  }

  lemma OneCycle(n: nat, s: State, k: nat, free: seq<nat>)
    requires StateInv(n, s, k, free, 0, []) && |free| == n && n + k < U32_LIMIT
    requires s.producer == s.consumer == []
    ensures var s1 := Next(s, Acquire);
      && s1.producer == [free[0]] && s1.consumer == []
      && StateInv(n, s1, k + 1, free[1..], 0, [])
      && StateInv(n, Next(s1, GiveBack(0)), k + 1, free[1..] + [free[0]], 0, [])
      && Next(s1, GiveBack(0)).producer == Next(s1, GiveBack(0)).consumer == []
  {
    hide Refines, Partition, PopFrom, PushTo;
    AcquireKeeps(n, s, k, free, 0, []);
    PopKeeps(n, s.pool.free, k, free);
    var s1 := Next(s, Acquire);
    GiveBackKeeps(n, s1, k + 1, free[1..], 0, [], 0);
    PushKeeps(n, s1.pool.free, k + 1, free[1..], free[0]);
  }

  /** Reading a ring's contents cell by cell. */
  lemma {:induction false} ContentsByCell(n: nat, ring: Ring, out: nat, len: nat)
    requires Shaped(n, ring) && len <= n
    requires ring.tail == out % U32_LIMIT && ring.head == (out + len) % U32_LIMIT
    ensures |Contents(n, ring)| == len
    ensures forall i :: out <= i < out + len ==> Contents(n, ring)[i - out] == ring.entries[Cell(n, i)]
    decreases len
  {
    hide Cell;
    CountersTell(out, len);
    if len > 0 {
      CellIsHead(n, out);
      CountersTell(out + 1, len - 1);
      var rest := PopFrom(ring).value.1;
      CountersTell(out, 0);
      ContentsByCell(n, rest, out + 1, len - 1);
    }
  }

  lemma TwiceInside(q: seq<nat>, i: nat, j: nat)
    requires i < j < |q| && q[i] == q[j]
    ensures multiset(q)[q[i]] >= 2
  {
    assert q == q[..j] + [q[j]] + q[j + 1..];
    assert q[..j][i] == q[i];
    assert q[i] in multiset(q[..j]);
  }

  /** Two counter values that share cell zero. */
  lemma ZeroCells(n: nat, r: nat)
    requires 0 < n && 0 < r < U32_LIMIT && (U32_LIMIT - r) % n == 0
    ensures Cell(n, U32_LIMIT - r) == 0 && Cell(n, U32_LIMIT) == 0
  {
    hide Cell;
    CellIsHead(n, U32_LIMIT - r);
    CellIsHead(n, U32_LIMIT);
  }

  lemma RemainderSmall(n: nat)
    requires n > 0 && U32_LIMIT % n != 0
    ensures n > 1 && U32_LIMIT % n < n
  {
  }

  /** A push with the head counter at 2^32 lands on the cell of an unread entry. */
  lemma StraddledTwice(n: nat, ring: Ring, out: nat, free: seq<nat>, x: nat) returns (i: nat, j: nat)
    requires 0 < n < U32_LIMIT && U32_LIMIT % n != 0
    requires Refines(n, ring, out, free) && |free| == n - 1 && out + |free| == U32_LIMIT
    ensures PushTo(ring, x).Some? && Shaped(n, PushTo(ring, x).value)
    ensures var q := Contents(n, PushTo(ring, x).value); i < j < |q| && q[i] == q[j] == x
  {
    hide Contents, Cell, Refines, PushTo;
    var r := U32_LIMIT % n;
    RemainderSmall(n);
    PushAtWrap(n, ring, out, free, x);
    WholePart(U32_LIMIT, n);
    ZeroCells(n, r);
    ContentsByCell(n, PushTo(ring, x).value, out, n);
    i, j := U32_LIMIT - r - out, U32_LIMIT - out;
    assert Contents(n, PushTo(ring, x).value)[(U32_LIMIT - r) - out] == x;
    assert Contents(n, PushTo(ring, x).value)[U32_LIMIT - out] == x;
  }

  /** A push with the head counter at 2^32 writes cell zero; when the capacity leaves a
      remainder, that cell still holds an unread entry, so the pushed index ends up twice. */
  lemma StraddlingGiveBack(n: nat, s: State, out: nat, free: seq<nat>)
    requires 0 < n < U32_LIMIT && U32_LIMIT % n != 0
    requires StateInv(n, s, out, free, 0, []) && |free| == n - 1 && out + |free| == U32_LIMIT
    requires |s.producer| == 1
    ensures !Conserved(n, Next(s, GiveBack(0)))
  {
    hide Contents, Partition, Refines, PushTo;
    var x := s.producer[0];
    var i, j := StraddledTwice(n, s.pool.free, out, free, x);
    var ring := PushTo(s.pool.free, x).value;
    TwiceInside(Contents(n, ring), i, j);
    var s' := Next(s, GiveBack(0));
    if Conserved(n, s') {
      PartitionOnce(n, Contents(n, ring), s'.producer, Contents(n, s'.pool.ready), s'.consumer, x);
    }
  }

  /** Over runs of any length, slots are conserved exactly when the slot count divides 2^32. */
  lemma ConservedForeverIff(n: nat)
    requires 0 < n < U32_LIMIT
    ensures (forall actions: seq<Action> :: Conserved(n, Run(n, actions))) <==> U32_LIMIT % n == 0
  {
    hide Run, Next, Partition, Contents, StateInv;
    if U32_LIMIT % n == 0 {
      forall actions: seq<Action> ensures Conserved(n, Run(n, actions)) {
        SlotsAreConserved(n, actions);
      }
    } else {
      var k := U32_LIMIT - n;
      var free := CycleTurns(n, k);
      RunSnoc(n, Cycle(k), Acquire);
      RunSnoc(n, Cycle(k) + [Acquire], GiveBack(0));
      var s := Run(n, Cycle(k));
      LastAcquire(n, s, k, free);
      StraddlingGiveBack(n, Next(s, Acquire), k + 1, free[1..]);
    }
  }

  lemma LastAcquire(n: nat, s: State, k: nat, free: seq<nat>)
    requires StateInv(n, s, k, free, 0, []) && |free| == n && s.producer == s.consumer == []
    ensures |Next(s, Acquire).producer| == 1 && StateInv(n, Next(s, Acquire), k + 1, free[1..], 0, [])
  {
    hide Refines, Partition, PopFrom;
    AcquireKeeps(n, s, k, free, 0, []);
    PopKeeps(n, s.pool.free, k, free);
  }

  /** The audio pool's six slots are such a count; the frame pool's eight are not. */
  lemma SixAndEight()
    ensures !(forall actions: seq<Action> :: Conserved(6, Run(6, actions)))
    ensures forall actions: seq<Action> :: Conserved(8, Run(8, actions))
  {
    hide Run, Conserved;
    ConservedForeverIff(6);
    ConservedForeverIff(8);
  }

  // ----- The pool in place -----

  class SlotPool {
    const slotCount: nat
    const slotSize: nat
    const slots: array<Byte>
    const freeRing: IndexRing
    const readyRing: IndexRing

    ghost predicate Valid()
      reads this, slots, freeRing, freeRing.entries, readyRing, readyRing.entries
    {
      && freeRing != readyRing && freeRing.entries != readyRing.entries
      && freeRing.Valid() && readyRing.Valid()
      && freeRing.capacity == readyRing.capacity == slotCount
      && slots.Length == slotCount * slotSize
    }

    ghost function Value(): Pool
      reads this, freeRing, freeRing.entries, readyRing, readyRing.entries
    {
      Pool(freeRing.Value(), readyRing.Value())
    }

    /** The bytes of a slot. */
    ghost function Slot(idx: nat): seq<Byte>
      requires idx < slotCount && slots.Length == slotCount * slotSize
      reads this, slots
    {
      SlotInRange(idx, slotCount, slotSize);
      slots[idx * slotSize..(idx + 1) * slotSize]
    }

    /** A pool needs at least one slot, and a slot size that is a positive multiple of the
        alignment; all slots start free and zeroed. */
    constructor (slotCount: nat, slotSize: nat)
      requires 0 < slotCount < U32_LIMIT && slotSize > 0 && slotSize % SLOT_ALIGNMENT == 0
      ensures Valid() && this.slotCount == slotCount && this.slotSize == slotSize
      ensures Value() == Start(slotCount).pool
      ensures forall i :: 0 <= i < slots.Length ==> slots[i] == 0
      ensures fresh(slots) && fresh(freeRing) && fresh(freeRing.entries)
      ensures fresh(readyRing) && fresh(readyRing.entries)
    {
      this.slotCount := slotCount;
      this.slotSize := slotSize;
      slots := new Byte[slotCount * slotSize](_ => 0);
      var free := new IndexRing(slotCount);
      var ready := new IndexRing(slotCount);
      free.FillSequential();
      freeRing, readyRing := free, ready;
      new;
    }

    method TryAcquireFree() returns (idx: Option<nat>)
      requires Valid()
      modifies freeRing`tail
      ensures Valid() && Value().ready == old(Value().ready)
      ensures idx.Some? ==> PopFrom(old(Value().free)) == Some((idx.value, Value().free))
      ensures idx.None? ==> PopFrom(old(Value().free)) == None && Value() == old(Value())
    {
      idx := freeRing.Pop();
    }

    method PushReady(idx: nat) returns (ok: bool)
      requires Valid() && idx < slotCount
      modifies readyRing`head, readyRing.entries
      ensures Valid() && Value().free == old(Value().free)
      ensures PushTo(old(Value().ready), idx) == if ok then Some(Value().ready) else None
      ensures !ok ==> Value() == old(Value())
    {
      ok := readyRing.Push(idx);
    }

    method PopReady() returns (idx: Option<nat>)
      requires Valid()
      modifies readyRing`tail
      ensures Valid() && Value().free == old(Value().free)
      ensures idx.Some? ==> PopFrom(old(Value().ready)) == Some((idx.value, Value().ready))
      ensures idx.None? ==> PopFrom(old(Value().ready)) == None && Value() == old(Value())
    {
      idx := readyRing.Pop();
    }

    /** A full free ring drops the index; conservation says it is never full. */
    method ReleaseFree(idx: nat) returns (ok: bool)
      requires Valid() && idx < slotCount
      modifies freeRing`head, freeRing.entries
      ensures Valid() && Value().ready == old(Value().ready)
      ensures PushTo(old(Value().free), idx) == if ok then Some(Value().free) else None
      ensures !ok ==> Value() == old(Value())
    {
      ok := freeRing.Push(idx);
    }

    /** Copies bytes into the slot area. */
    method CopyInto(at: nat, bytes: seq<Byte>)
      requires at + |bytes| <= slots.Length
      modifies slots
      ensures slots[..] == Overwrite(old(slots[..]), at, bytes)
    {
      var i := 0;
      while i < |bytes|
        invariant 0 <= i <= |bytes|
        invariant slots[at..at + i] == bytes[..i]
        invariant forall j :: 0 <= j < at || at + i <= j < slots.Length ==> slots[j] == old(slots[j])
      {
        slots[at + i] := bytes[i];
        i := i + 1;
      }
      assert slots[..at] == old(slots[..])[..at];
      assert slots[at + |bytes|..] == old(slots[..])[at + |bytes|..];
      assert slots[..] == slots[..at] + slots[at..at + |bytes|] + slots[at + |bytes|..];
    }

    /** Writes the front of a slot; no other slot changes. */
    method WriteSlot(idx: nat, bytes: seq<Byte>)
      requires Valid() && idx < slotCount && |bytes| <= slotSize
      modifies slots
      ensures Valid()
      ensures Slot(idx) == Overwrite(old(Slot(idx)), 0, bytes)
      ensures forall j :: 0 <= j < slotCount && j != idx ==> Slot(j) == old(Slot(j))
    {
      hide Overwrite, Shaped;
      SlotInRange(idx, slotCount, slotSize);
      ghost var before := slots[..];
      CopyInto(idx * slotSize, bytes);
      SlotWritten(before, idx, slotCount, slotSize, bytes);
      forall j | 0 <= j < slotCount && j != idx
        ensures Slot(j) == old(Slot(j))
      {
        OtherSlotKept(before, idx, j, slotCount, slotSize, bytes);
      }
    }

    method ReadSlot(idx: nat, len: nat) returns (bytes: seq<Byte>)
      requires Valid() && idx < slotCount && len <= slotSize
      ensures bytes == Slot(idx)[..len]
    {
      SlotInRange(idx, slotCount, slotSize);
      bytes := slots[idx * slotSize..(idx + 1) * slotSize][..len];
    }

    /** The free ring's next index is a slot of this pool. */
    ghost predicate NextFreeInRange()
      reads this, freeRing, freeRing.entries
    {
      PopFrom(freeRing.Value()).Some? ==> PopFrom(freeRing.Value()).value.0 < slotCount
    }

    /** Publishes a frame through the pool: a free slot is filled and queued as ready. Without a
        free slot the pixels travel inline; if the ready ring refuses, they are copied out and
        the slot goes back. `render(n)` is what the renderer writes into a buffer of n bytes. */
    method ProduceFrame(expected: nat, render: nat -> seq<Byte>) returns (pixels: seq<Byte>, span: Option<nat>)
      requires Valid() && NextFreeInRange() && (forall n: nat :: |render(n)| == n)
      modifies slots, freeRing, freeRing.entries, readyRing`head, readyRing.entries
      ensures Valid()
      ensures Value() == Published(old(Value()))
      ensures PopFrom(old(Value().free)).None? ==> pixels == render(expected) && span == None
      ensures span.Some? <==>
        (PopFrom(old(Value().free)).Some?
         && PushTo(old(Value().ready), PopFrom(old(Value().free)).value.0).Some?)
      ensures span.Some? ==>
        && pixels == [] && span.value == PopFrom(old(Value().free)).value.0 < slotCount
        && |Slot(span.value)| == slotSize
        && Slot(span.value)[..Usable(expected, slotSize)] == render(Usable(expected, slotSize))
      ensures span.None? && PopFrom(old(Value().free)).Some? ==> pixels == render(Usable(expected, slotSize))
    {
      hide PopFrom, PushTo, Overwrite, Shaped;
      var slot := TryAcquireFree();
      if slot.None? { return render(expected), None; }
      var usable := Usable(expected, slotSize);
      var frame := render(usable);
      WriteSlot(slot.value, frame);
      SlotInRange(slot.value, slotCount, slotSize);
      PrefixWritten(old(Slot(slot.value)), frame);
      var queued := PushReady(slot.value);
      if queued { return [], slot; }
      var copy := ReadSlot(slot.value, usable);
      var _ := ReleaseFree(slot.value);
      return copy, None;
    }
  }

  /** How much of the frame a slot takes. */
  function Usable(expected: nat, slotSize: nat): nat {
    if expected < slotSize then expected else slotSize
  }

  /** The two rings after a frame has been offered to the pool. */
  function Published(pool: Pool): Pool {
    match PopFrom(pool.free)
    case None => pool
    case Some((x, free)) =>
      match PushTo(pool.ready, x)
      case Some(ready) => Pool(free, ready)
      case None => Pool(match PushTo(free, x) case Some(back) => back case None => free, pool.ready)
  }

  lemma SlotInRange(idx: nat, count: nat, size: nat)
    requires idx < count
    ensures idx * size + size == (idx + 1) * size <= count * size
  {
    assert (idx + 1) * size <= count * size;
  }

  lemma SlotWritten(before: seq<Byte>, idx: nat, count: nat, size: nat, bytes: seq<Byte>)
    requires idx < count && |bytes| <= size && |before| == count * size
    ensures idx * size + size == (idx + 1) * size <= count * size
    ensures Overwrite(before, idx * size, bytes)[idx * size..(idx + 1) * size]
      == Overwrite(before[idx * size..(idx + 1) * size], 0, bytes)
  {
    SlotInRange(idx, count, size);
    WriteInsideSlice(before, idx * size, (idx + 1) * size, bytes);
  }

  lemma WriteInsideSlice(data: seq<Byte>, lo: nat, hi: nat, bytes: seq<Byte>)
    requires lo + |bytes| <= hi <= |data|
    ensures Overwrite(data, lo, bytes)[lo..hi] == Overwrite(data[lo..hi], 0, bytes)
  {
    hide Overwrite;
    var whole, part := Overwrite(data, lo, bytes), Overwrite(data[lo..hi], 0, bytes);
    OverwriteAt(data, lo, bytes);
    OverwriteAt(data[lo..hi], 0, bytes);
    forall i | 0 <= i < hi - lo
      ensures whole[lo..hi][i] == part[i]
    {
      if i < |bytes| {
        assert whole[lo..lo + |bytes|][i] == bytes[i] == part[0..|bytes|][i];
      }
    }
  }

  lemma OtherSlotKept(before: seq<Byte>, idx: nat, j: nat, count: nat, size: nat, bytes: seq<Byte>)
    requires idx < count && j < count && idx != j && |bytes| <= size && |before| == count * size
    ensures j * size + size == (j + 1) * size <= count * size && idx * size + size <= count * size
    ensures Overwrite(before, idx * size, bytes)[j * size..(j + 1) * size] == before[j * size..(j + 1) * size]
  {
    hide Overwrite;
    SlotInRange(idx, count, size);
    SlotInRange(j, count, size);
    if j < idx { SlotInRange(j, idx, size); } else { SlotInRange(idx, j, size); }
    OverwriteAt(before, idx * size, bytes);
    SameSlice(before, Overwrite(before, idx * size, bytes), j * size, (j + 1) * size);
  }

  lemma PrefixWritten(slot: seq<Byte>, bytes: seq<Byte>)
    requires |bytes| <= |slot|
    ensures Overwrite(slot, 0, bytes)[..|bytes|] == bytes
  {
  }

  /** In a conserved pool the sink's copy-out branch is dead: an acquired slot always finds room
      in the ready ring. */
  lemma AcquiredSlotIsQueued(n: nat, s: State, fOut: nat, free: seq<nat>, rOut: nat, ready: seq<nat>)
    requires StateInv(n, s, fOut, free, rOut, ready) && Safe(n, rOut + |ready|)
    requires PopFrom(s.pool.free).Some?
    ensures PopFrom(s.pool.free).value.0 < n
    ensures PushTo(s.pool.ready, PopFrom(s.pool.free).value.0).Some?
  {
    hide Refines, Partition, PopFrom, PushTo;
    PopKeeps(n, s.pool.free, fOut, free);
    PartitionCounts(n, free, s.producer, ready, s.consumer);
    PartitionOnce(n, free, s.producer, ready, s.consumer, free[0]);
    assert free[0] in multiset(free);
    PushKeeps(n, s.pool.ready, rOut, ready, free[0]);
  }
}
