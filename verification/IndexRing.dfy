/**
 The ring of slot indices behind a slot pool. Its head and tail are free-running 32-bit
 counters, reduced modulo the capacity only when an entry is addressed. Proved: it is a
 bounded queue for ever if and only if the capacity divides 2^32, and for any capacity until
 the head counter first wraps.
 */
module IndexRing {
  import opened Bytes
  import opened RingLayout
  import opened Arithmetic

  datatype Ring = Ring(entries: seq<nat>, head: nat, tail: nat)

  datatype Op = Push(value: nat) | Pop

  datatype Answer = Pushed | Refused | Taken(value: nat) | Nothing

  predicate Shaped(capacity: nat, r: Ring) {
    |r.entries| == capacity && 0 < capacity < U32_LIMIT && r.head < U32_LIMIT && r.tail < U32_LIMIT
  }

  /** 32-bit subtraction. */
  function WrappingSub(a: nat, b: nat): nat {
    (a - b) % U32_LIMIT
  }

  function PushTo(r: Ring, value: nat): Option<Ring> {
    if |r.entries| == 0 || WrappingSub(r.head, r.tail) >= |r.entries| then None
    else Some(Ring(r.entries[r.head % |r.entries| := value], (r.head + 1) % U32_LIMIT, r.tail))
  }

  function PopFrom(r: Ring): Option<(nat, Ring)> {
    if r.tail == r.head || |r.entries| == 0 then None
    else Some((r.entries[r.tail % |r.entries|], r.(tail := (r.tail + 1) % U32_LIMIT)))
  }

  function Step(r: Ring, op: Op): (Ring, Answer) {
    match op
    case Push(value) =>
      (match PushTo(r, value) case None => (r, Refused) case Some(r') => (r', Pushed))
    case Pop =>
      (match PopFrom(r) case None => (r, Nothing) case Some((x, r')) => (r', Taken(x)))
  }

  function NewRing(capacity: nat): Ring {
    Ring(seq(capacity, _ => 0), 0, 0)
  }

  ghost function After(capacity: nat, ops: seq<Op>): Ring
    decreases |ops|
  {
    if ops == [] then NewRing(capacity)
    else Step(After(capacity, ops[..|ops| - 1]), ops[|ops| - 1]).0
  }

  // ----- The bounded queue it stands for -----

  function QueueStep(capacity: nat, q: seq<nat>, op: Op): (seq<nat>, Answer) {
    match op
    case Push(value) => if |q| >= capacity then (q, Refused) else (q + [value], Pushed)
    case Pop => if q == [] then (q, Nothing) else (q[1..], Taken(q[0]))
  }

  ghost function QueueAfter(capacity: nat, ops: seq<Op>): seq<nat>
    decreases |ops|
  {
    if ops == [] then []
    else QueueStep(capacity, QueueAfter(capacity, ops[..|ops| - 1]), ops[|ops| - 1]).0
  }

  /** Pushes the queue has accepted. */
  ghost function Accepted(capacity: nat, ops: seq<Op>): nat
    decreases |ops|
  {
    if ops == [] then 0
    else
      var before := ops[..|ops| - 1];
      Accepted(capacity, before)
        + if QueueStep(capacity, QueueAfter(capacity, before), ops[|ops| - 1]).1 == Pushed then 1 else 0
  }

  /** After every history the next answer is the queue's answer. */
  ghost predicate IsQueue(capacity: nat) {
    forall ops: seq<Op>, op: Op ::
      Step(After(capacity, ops), op).1 == QueueStep(capacity, QueueAfter(capacity, ops), op).1
  }

  // ----- Addressing -----

  /** Where the entry of the n-th push is kept. */
  function Cell(capacity: nat, n: nat): (c: nat)
    requires capacity > 0
    ensures c < capacity
  {
    n % U32_LIMIT % capacity
  }

  lemma DividingLimit(capacity: nat, n: nat)
    requires 0 < capacity && U32_LIMIT % capacity == 0
    ensures Cell(capacity, n) == n % capacity
  {
    var k, m, r := U32_LIMIT / capacity, n / U32_LIMIT, n % U32_LIMIT;
    assert U32_LIMIT == k * capacity;
    assert n == m * U32_LIMIT + r;
    assert m * (k * capacity) == (m * k) * capacity;
    ModAddsMultiple(m * k, capacity, r);
  }

  /** Entries less than a capacity apart have different cells, as long as the capacity divides
      the counter range or the counter has not wrapped. */
  lemma CellsDiffer(capacity: nat, i: nat, j: nat)
    requires i < j < i + capacity
    requires U32_LIMIT % capacity == 0 || j < U32_LIMIT
    ensures Cell(capacity, i) != Cell(capacity, j)
  {
    hide Cell;
    NearbyDiffer(capacity, i, j);
    CellIsHead(capacity, i);
    CellIsHead(capacity, j);
    if U32_LIMIT % capacity == 0 {
      DividingLimit(capacity, i);
      DividingLimit(capacity, j);
    } else {
      assert i % U32_LIMIT == i && j % U32_LIMIT == j;
    }
  }

  // ----- Refinement -----

  /** The ring has seen `taken` pops and holds `q`. */
  ghost predicate Refines(capacity: nat, r: Ring, taken: nat, q: seq<nat>) {
    && Shaped(capacity, r) && |q| <= capacity
    && r.tail == taken % U32_LIMIT && r.head == (taken + |q|) % U32_LIMIT
    && forall n :: taken <= n < taken + |q| ==> r.entries[Cell(capacity, n)] == q[n - taken]
  }

  lemma CountersTell(taken: nat, n: nat)
    requires n < U32_LIMIT
    ensures WrappingSub((taken + n) % U32_LIMIT, taken % U32_LIMIT) == n
    ensures (taken + n) % U32_LIMIT == taken % U32_LIMIT <==> n == 0
    ensures ((taken + n) % U32_LIMIT + 1) % U32_LIMIT == (taken + n + 1) % U32_LIMIT
  {
  }

  lemma PushRefines(capacity: nat, r: Ring, taken: nat, q: seq<nat>, value: nat)
    requires Refines(capacity, r, taken, q)
    requires U32_LIMIT % capacity == 0 || taken + |q| < U32_LIMIT
    ensures var (r', a) := Step(r, Push(value));
      var (q', b) := QueueStep(capacity, q, Push(value));
      a == b && Refines(capacity, r', taken, q')
  {
    hide Cell;
    CountersTell(taken, |q|);
    CellIsHead(capacity, taken + |q|);
    if |q| < capacity {
      forall n | taken <= n < taken + |q|
        ensures Cell(capacity, n) != Cell(capacity, taken + |q|)
      {
        CellsDiffer(capacity, n, taken + |q|);
      }
    }
  }

  lemma CellIsHead(capacity: nat, n: nat)
    requires capacity > 0
    ensures Cell(capacity, n) == n % U32_LIMIT % capacity
  {
  }

  lemma PopRefines(capacity: nat, r: Ring, taken: nat, q: seq<nat>)
    requires Refines(capacity, r, taken, q)
    ensures var (r', a) := Step(r, Pop);
      var (q', b) := QueueStep(capacity, q, Pop);
      a == b && Refines(capacity, r', if q == [] then taken else taken + 1, q')
  {
    hide Cell;
    CountersTell(taken, |q|);
    CountersTell(taken, 0);
    CellIsHead(capacity, taken);
  }

  /** As long as the cells cannot collide, the ring is the queue, whatever is done to it. */
  lemma {:induction false} RunRefines(capacity: nat, ops: seq<Op>) returns (taken: nat)
    requires 0 < capacity < U32_LIMIT
    requires U32_LIMIT % capacity == 0 || Accepted(capacity, ops) <= U32_LIMIT
    ensures Refines(capacity, After(capacity, ops), taken, QueueAfter(capacity, ops))
    ensures taken + |QueueAfter(capacity, ops)| == Accepted(capacity, ops)
    decreases |ops|
  {
    hide Refines, Step, Cell;
    taken := 0;
    if ops == [] {
      NewRefines(capacity);
    } else {
      var before, op := ops[..|ops| - 1], ops[|ops| - 1];
      taken := RunRefines(capacity, before);
      match op
      case Push(value) =>
        if U32_LIMIT % capacity == 0 || Accepted(capacity, before) < U32_LIMIT {
          PushRefines(capacity, After(capacity, before), taken, QueueAfter(capacity, before), value);
        } else {
          FullPushRefines(capacity, After(capacity, before), taken, QueueAfter(capacity, before), value);
        }
      case Pop =>
        PopRefines(capacity, After(capacity, before), taken, QueueAfter(capacity, before));
        taken := if QueueAfter(capacity, before) == [] then taken else taken + 1;
    }
  }

  lemma NewRefines(capacity: nat)
    requires 0 < capacity < U32_LIMIT
    ensures Refines(capacity, After(capacity, []), 0, [])
  {
    hide Cell;
  }

  /** A refused push changes nothing, wherever the counters stand. */
  lemma FullPushRefines(capacity: nat, r: Ring, taken: nat, q: seq<nat>, value: nat)
    requires Refines(capacity, r, taken, q) && |q| >= capacity
    ensures Step(r, Push(value)) == (r, Refused)
  {
    hide Cell;
    CountersTell(taken, |q|);
  }

  /** Every answer is the queue's answer while fewer than 2^32 pushes have been accepted. */
  lemma QueueUntilWrap(capacity: nat, ops: seq<Op>, op: Op)
    requires 0 < capacity < U32_LIMIT
    requires U32_LIMIT % capacity == 0 || Accepted(capacity, ops) < U32_LIMIT
    ensures Step(After(capacity, ops), op).1 == QueueStep(capacity, QueueAfter(capacity, ops), op).1
  {
    hide Refines, Step, Cell, After, QueueAfter, Accepted;
    var taken := RunRefines(capacity, ops);
    match op
    case Push(value) => PushRefines(capacity, After(capacity, ops), taken, QueueAfter(capacity, ops), value);
    case Pop => PopRefines(capacity, After(capacity, ops), taken, QueueAfter(capacity, ops));
  }

  // ----- The counter-example for every other capacity -----

  /** `n` times push and pop. */
  ghost function Shuttle(n: nat): seq<Op> {
    if n == 0 then [] else Shuttle(n - 1) + [Push(0)] + [Pop]
  }

  /** Then `n` zeros are left in the ring. */
  ghost function Load(first: nat, n: nat): seq<Op> {
    if n == 0 then Shuttle(first) else Load(first, n - 1) + [Push(0)]
  }

  lemma {:induction false} ShuttleLeavesNothing(capacity: nat, n: nat)
    requires capacity > 0
    ensures QueueAfter(capacity, Shuttle(n)) == [] && Accepted(capacity, Shuttle(n)) == n
  {
    if n > 0 {
      ShuttleLeavesNothing(capacity, n - 1);
      Snoc(capacity, Shuttle(n - 1), Push(0));
      Snoc(capacity, Shuttle(n - 1) + [Push(0)], Pop);
    }
  }

  lemma Snoc(capacity: nat, ops: seq<Op>, op: Op)
    ensures QueueAfter(capacity, ops + [op]) == QueueStep(capacity, QueueAfter(capacity, ops), op).0
    ensures After(capacity, ops + [op]) == Step(After(capacity, ops), op).0
    ensures Accepted(capacity, ops + [op]) == Accepted(capacity, ops)
      + if QueueStep(capacity, QueueAfter(capacity, ops), op).1 == Pushed then 1 else 0
  {
    hide QueueStep, Step;
    assert (ops + [op])[..|ops|] == ops;
  }

  lemma {:induction false} LoadLeavesZeros(capacity: nat, first: nat, n: nat)
    requires capacity > 0 && n <= capacity
    ensures |QueueAfter(capacity, Load(first, n))| == n
    ensures forall k :: 0 <= k < n ==> QueueAfter(capacity, Load(first, n))[k] == 0
    ensures Accepted(capacity, Load(first, n)) == first + n
  {
    hide QueueAfter, Accepted, Shuttle;
    if n == 0 {
      ShuttleLeavesNothing(capacity, first);
    } else {
      LoadLeavesZeros(capacity, first, n - 1);
      Snoc(capacity, Load(first, n - 1), Push(0));
    }
  }

  /** With the head about to wrap and a remainder of entries unread, the next push lands on the
      oldest of them, and the pop after it hands over the newcomer. */
  lemma StraddleOverwrites(capacity: nat)
    requires 0 < capacity < U32_LIMIT && U32_LIMIT % capacity != 0
    ensures var ops := Load(U32_LIMIT - U32_LIMIT % capacity, U32_LIMIT % capacity) + [Push(1)];
      && Step(After(capacity, ops), Pop).1 == Taken(1)
      && QueueStep(capacity, QueueAfter(capacity, ops), Pop).1 == Taken(0)
  {
    hide After, QueueAfter, Accepted, Load, Cell, Step;
    var rest := U32_LIMIT % capacity;
    var ops := Load(U32_LIMIT - rest, rest);
    LoadLeavesZeros(capacity, U32_LIMIT - rest, rest);
    var taken := RunRefines(capacity, ops);
    Snoc(capacity, ops, Push(1));
    assert taken == U32_LIMIT - rest;
    WholePart(U32_LIMIT, capacity);
    StraddlingPush(capacity, After(capacity, ops), taken, QueueAfter(capacity, ops));
  }

  /** With the head counter at 2^32, a push writes cell zero. */
  lemma PushAtWrap(capacity: nat, r: Ring, taken: nat, q: seq<nat>, value: nat)
    requires Refines(capacity, r, taken, q) && 0 < |q| < capacity && taken + |q| == U32_LIMIT
    ensures PushTo(r, value) == Some(Ring(r.entries[0 := value], 1, taken)) && |r.entries| == capacity
  {
    hide Cell;
    assert r.head == 0 && r.tail == taken;
    CountersTell(taken, |q|);
  }

  lemma StraddlingPush(capacity: nat, r: Ring, taken: nat, q: seq<nat>)
    requires Refines(capacity, r, taken, q) && 0 < |q| < capacity
    requires taken < U32_LIMIT == taken + |q| && taken % capacity == 0
    ensures Step(Step(r, Push(1)).0, Pop).1 == Taken(1)
  {
    hide Cell, Refines, PushTo;
    StraddleCounters(capacity, r, taken, q);
    PushAtWrap(capacity, r, taken, q, 1);
    SmallMultiple(taken, capacity);
  }

  lemma SmallMultiple(x: nat, capacity: nat)
    requires capacity > 1 && x % capacity == 0
    ensures x != 1
  {
  }

  /** At the straddle the head counter is at its wrap and the tail counter at cell 0. */
  lemma StraddleCounters(capacity: nat, r: Ring, taken: nat, q: seq<nat>)
    requires Refines(capacity, r, taken, q) && 0 < |q| < capacity
    requires taken < U32_LIMIT == taken + |q| && taken % capacity == 0
    ensures capacity == |r.entries| < U32_LIMIT && r.tail == taken && r.head == 0 && r.tail % capacity == 0
  {
    hide Cell;
  }

  /** A bounded queue over every history, counter wrap included, exactly for the capacities that
      divide 2^32. */
  lemma QueueForeverIff(capacity: nat)
    requires 0 < capacity < U32_LIMIT
    ensures IsQueue(capacity) <==> U32_LIMIT % capacity == 0
  {
    hide After, QueueAfter, Step, QueueStep, Load;
    if U32_LIMIT % capacity == 0 {
      forall ops: seq<Op>, op: Op
        ensures Step(After(capacity, ops), op).1 == QueueStep(capacity, QueueAfter(capacity, ops), op).1
      {
        QueueUntilWrap(capacity, ops, op);
      }
    } else {
      StraddleOverwrites(capacity);
    }
  }

  // ----- The ring in place -----

  class IndexRing {
    const capacity: nat
    const entries: array<nat>
    var head: nat
    var tail: nat

    ghost predicate Valid()
      reads this, entries
    {
      entries.Length == capacity && Shaped(capacity, Value())
    }

    ghost function Value(): Ring
      reads this, entries
    {
      Ring(entries[..], head, tail)
    }

    constructor (capacity: nat)
      requires 0 < capacity < U32_LIMIT
      ensures Valid() && fresh(entries) && this.capacity == capacity
      ensures Value() == After(capacity, [])
    {
      this.capacity := capacity;
      entries := new nat[capacity](_ => 0);
      head, tail := 0, 0;
      new;
      assert entries[..] == seq(capacity, _ => 0);
    }

    method Push(value: nat) returns (ok: bool)
      requires Valid()
      modifies this`head, entries
      ensures Valid()
      ensures PushTo(old(Value()), value) == if ok then Some(Value()) else None
      ensures !ok ==> Value() == old(Value())
    {
      if WrappingSub(head, tail) >= capacity { return false; }
      entries[head % capacity] := value;
      head := (head + 1) % U32_LIMIT;
      return true;
    }

    method Pop() returns (value: Option<nat>)
      requires Valid()
      modifies this`tail
      ensures Valid()
      ensures value.Some? ==> PopFrom(old(Value())) == Some((value.value, Value()))
      ensures value.None? ==> PopFrom(old(Value())) == None && Value() == old(Value())
    {
      if tail == head { return None; }
      value := Some(entries[tail % capacity]);
      tail := (tail + 1) % U32_LIMIT;
    }

    /** Marks every index as queued, in order. */
    method FillSequential()
      requires Valid()
      modifies this`head, this`tail, entries
      ensures Valid() && Value() == Filled(capacity)
    {
      var i := 0;
      while i < capacity
        invariant 0 <= i <= capacity
        invariant forall k :: 0 <= k < i ==> entries[k] == k
      {
        entries[i] := i;
        i := i + 1;
      }
      tail := 0;
      head := capacity;
      assert entries[..] == Indices(capacity);
    }
  }

  function Indices(n: nat): (s: seq<nat>)
    ensures |s| == n && forall i :: 0 <= i < n ==> s[i] == i
  {
    seq(n, i => i)
  }

  function Filled(capacity: nat): Ring {
    Ring(Indices(capacity), capacity, 0)
  }

  /** The sequential fill queues every index once, in order. */
  lemma FilledRefines(capacity: nat)
    requires 0 < capacity < U32_LIMIT
    ensures Refines(capacity, Filled(capacity), 0, Indices(capacity))
  {
    hide Cell, Indices;
    forall n | 0 <= n < capacity
      ensures Cell(capacity, n) == n
    {
      CellIsHead(capacity, n);
      QuotientIs(n, 0, capacity, n);
    }
  }
}
