/**
 One producer and one consumer on a shared index ring, interleaved freely. Every load and store of
 a counter and of an entry is a step of its own, so each side acts on a copy of the other's counter
 that may be out of date.
 */
module IndexConcurrency {
  import opened Arithmetic
  import opened Bytes
  import opened IndexRing

  /** Where the producer is inside a push of `value`. `seen` is how many pops had been made when the
      tail was loaded; nothing reads it. */
  datatype Producer =
    | Resting
    | HeadLoaded(value: nat, head: nat)
    | TailLoaded(value: nat, head: nat, tail: nat, seen: nat)
    | Written(value: nat, head: nat)

  /** Where the consumer is inside a pop. `seen` is how many pushes had been made when the head was
      loaded; nothing reads it. */
  datatype Consumer =
    | Idle
    | HeadSeen(head: nat, seen: nat)
    | TailSeen(head: nat, tail: nat, seen: nat)
    | ValueRead(value: nat, tail: nat)

  /** The shared words, the two program counters, and the history of published pushes and pops. */
  datatype State = State(
    entries: seq<nat>, head: nat, tail: nat,
    producer: Producer, consumer: Consumer,
    pushed: seq<nat>, popped: seq<nat>)

  datatype Action = StartPush(value: nat) | Produce | StartPop | Consume

  /** A ring in which nothing is queued, or every index in order. */
  function Init(capacity: nat, full: bool): State {
    if full then State(Indices(capacity), capacity, 0, Resting, Idle, Indices(capacity), [])
    else State(seq(capacity, _ => 0), 0, 0, Resting, Idle, [], [])
  }

  function ProducerNext(s: State): State {
    match s.producer
    case Resting => s
    case HeadLoaded(v, h) => s.(producer := TailLoaded(v, h, s.tail, |s.popped|))
    case TailLoaded(v, h, t, _) =>
      if |s.entries| == 0 || WrappingSub(h, t) >= |s.entries| then s.(producer := Resting)
      else s.(entries := s.entries[h % |s.entries| := v], producer := Written(v, h))
    case Written(v, h) => s.(head := (h + 1) % U32_LIMIT, producer := Resting, pushed := s.pushed + [v])
  }

  function ConsumerNext(s: State): State {
    match s.consumer
    case Idle => s
    case HeadSeen(h, seen) => s.(consumer := TailSeen(h, s.tail, seen))
    case TailSeen(h, t, _) =>
      if t == h || |s.entries| == 0 then s.(consumer := Idle)
      else s.(consumer := ValueRead(s.entries[t % |s.entries|], t))
    case ValueRead(v, t) => s.(tail := (t + 1) % U32_LIMIT, consumer := Idle, popped := s.popped + [v])
  }

  /** An action that does not apply leaves the state alone. */
  function Next(s: State, a: Action): State {
    match a
    case StartPush(value) => if s.producer.Resting? then s.(producer := HeadLoaded(value, s.head)) else s
    case Produce => ProducerNext(s)
    case StartPop => if s.consumer.Idle? then s.(consumer := HeadSeen(s.head, |s.pushed|)) else s
    case Consume => ConsumerNext(s)
  }

  /** The state after a schedule. */
  ghost function Run(capacity: nat, full: bool, schedule: seq<Action>): State {
    if schedule == [] then Init(capacity, full)
    else Next(Run(capacity, full, schedule[..|schedule| - 1]), schedule[|schedule| - 1])
  }

  // ----- The invariant -----

  ghost predicate QueueInv(capacity: nat, s: State) {
    && 0 < capacity < U32_LIMIT && |s.entries| == capacity
    && s.head == |s.pushed| % U32_LIMIT && s.tail == |s.popped| % U32_LIMIT
    && |s.popped| <= |s.pushed| <= |s.popped| + capacity
    && s.popped == s.pushed[..|s.popped|]
    && (forall n :: |s.popped| <= n < |s.pushed| ==> s.entries[Cell(capacity, n)] == s.pushed[n])
  }

  ghost predicate ProducerInv(capacity: nat, s: State)
    requires QueueInv(capacity, s)
  {
    match s.producer
    case Resting => true
    case HeadLoaded(_, h) => h == s.head
    case TailLoaded(_, h, t, seen) =>
      && h == s.head && t == seen % U32_LIMIT && seen <= |s.popped| && |s.pushed| <= seen + capacity
    case Written(v, h) =>
      && h == s.head && |s.pushed| < |s.popped| + capacity && s.entries[Cell(capacity, |s.pushed|)] == v
  }

  ghost predicate ConsumerInv(capacity: nat, s: State)
    requires QueueInv(capacity, s)
  {
    match s.consumer
    case Idle => true
    case HeadSeen(h, seen) => h == seen % U32_LIMIT && |s.popped| <= seen <= |s.pushed|
    case TailSeen(h, t, seen) => h == seen % U32_LIMIT && |s.popped| <= seen <= |s.pushed| && t == s.tail
    case ValueRead(v, t) => t == s.tail && |s.popped| < |s.pushed| && v == s.pushed[|s.popped|]
  }

  ghost predicate Good(capacity: nat, s: State) {
    QueueInv(capacity, s) && ProducerInv(capacity, s) && ConsumerInv(capacity, s)
  }

  /** The next push has a cell of its own. */
  predicate Room(capacity: nat, s: State)
    requires capacity > 0
  {
    U32_LIMIT % capacity == 0 || |s.pushed| < U32_LIMIT
  }

  lemma InitIsGood(capacity: nat, full: bool)
    requires 0 < capacity < U32_LIMIT
    ensures Good(capacity, Init(capacity, full))
  {
    hide Cell, Indices;
    forall n | 0 <= n < capacity
      ensures Cell(capacity, n) == n
    {
      SmallCell(capacity, n);
    }
  }

  lemma SmallCell(capacity: nat, n: nat)
    requires n < capacity < U32_LIMIT
    ensures Cell(capacity, n) == n
  {
    hide Cell;
    CellIsHead(capacity, n);
    QuotientIs(n, 0, capacity, n);
  }

  /** The head load of a push, and of a pop. */
  lemma StartsAreGood(capacity: nat, s: State, a: Action)
    requires Good(capacity, s) && (a.StartPush? || a.StartPop?)
    ensures Good(capacity, Next(s, a))
  {
    hide Cell;
  }

  lemma TailLoadIsGood(capacity: nat, s: State)
    requires Good(capacity, s) && s.producer.HeadLoaded?
    ensures Good(capacity, ProducerNext(s))
  {
    hide Cell;
  }

  /** The entry store of a push: with a tail that may be old, the cell is free. */
  lemma WriteIsGood(capacity: nat, s: State)
    requires Good(capacity, s) && s.producer.TailLoaded? && Room(capacity, s)
    ensures Good(capacity, ProducerNext(s))
    ensures ProducerNext(s).producer.Resting? <==> |s.pushed| == s.producer.seen + capacity
    ensures forall n :: |s.popped| <= n < |s.pushed| ==>
      ProducerNext(s).entries[Cell(capacity, n)] == s.entries[Cell(capacity, n)]
  {
    hide Cell;
    var seen, made := s.producer.seen, |s.pushed|;
    CountersTell(seen, made - seen);
    CellIsHead(capacity, made);
    if made < seen + capacity {
      forall n | |s.popped| <= n < made
        ensures Cell(capacity, n) != Cell(capacity, made)
      {
        CellsDiffer(capacity, n, made);
      }
    }
  }

  /** The head store of a push. */
  lemma PublishIsGood(capacity: nat, s: State)
    requires Good(capacity, s) && s.producer.Written?
    ensures Good(capacity, ProducerNext(s))
  {
    hide Cell;
    NextCounter(|s.pushed|);
  }

  lemma NextCounter(n: nat)
    ensures (n % U32_LIMIT + 1) % U32_LIMIT == (n + 1) % U32_LIMIT
  {
  }

  lemma ProduceIsGood(capacity: nat, s: State)
    requires Good(capacity, s) && Room(capacity, s)
    ensures Good(capacity, ProducerNext(s))
  {
    hide Good;
    match s.producer
    case Resting =>
    case HeadLoaded(_, _) => TailLoadIsGood(capacity, s);
    case TailLoaded(_, _, _, _) => WriteIsGood(capacity, s);
    case Written(_, _) => PublishIsGood(capacity, s);
  }

  /** The comparison and the entry load of a pop: with a head that may be old, the entry is there. */
  lemma ReadIsGood(capacity: nat, s: State)
    requires Good(capacity, s) && s.consumer.TailSeen?
    ensures Good(capacity, ConsumerNext(s))
    ensures ConsumerNext(s).consumer.Idle? <==> s.consumer.seen == |s.popped|
  {
    hide Cell;
    var gone, seen := |s.popped|, s.consumer.seen;
    CountersTell(gone, seen - gone);
    CellIsHead(capacity, gone);
  }

  /** The tail store of a pop. */
  lemma RemoveIsGood(capacity: nat, s: State)
    requires Good(capacity, s) && s.consumer.ValueRead?
    ensures Good(capacity, ConsumerNext(s))
  {
    hide Cell;
    NextCounter(|s.popped|);
    var n := |s.popped|;
    assert s.pushed[..n + 1] == s.pushed[..n] + [s.pushed[n]];
  }

  lemma ConsumeIsGood(capacity: nat, s: State)
    requires Good(capacity, s)
    ensures Good(capacity, ConsumerNext(s))
  {
    match s.consumer
    case Idle =>
    case HeadSeen(_, _) => hide Cell;
    case TailSeen(_, _, _) => ReadIsGood(capacity, s);
    case ValueRead(_, _) => RemoveIsGood(capacity, s);
  }

  lemma NextIsGood(capacity: nat, s: State, a: Action)
    requires Good(capacity, s) && Room(capacity, s)
    ensures Good(capacity, Next(s, a))
  {
    hide Good, ProducerNext, ConsumerNext;
    match a
    case StartPush(_) => StartsAreGood(capacity, s, a);
    case Produce => ProduceIsGood(capacity, s);
    case StartPop => StartsAreGood(capacity, s, a);
    case Consume => ConsumeIsGood(capacity, s);
  }

  lemma PushesOnlyGrow(s: State, a: Action)
    ensures |s.pushed| <= |Next(s, a).pushed|
  {
  }

  // ----- Every schedule -----

  lemma {:induction false} EveryRunIsGood(capacity: nat, full: bool, schedule: seq<Action>)
    requires 0 < capacity < U32_LIMIT
    requires U32_LIMIT % capacity == 0 || |Run(capacity, full, schedule).pushed| < U32_LIMIT
    ensures Good(capacity, Run(capacity, full, schedule))
    decreases |schedule|
  {
    hide Good, Next, Init;
    if schedule == [] {
      InitIsGood(capacity, full);
    } else {
      var before := schedule[..|schedule| - 1];
      var a := schedule[|schedule| - 1];
      PushesOnlyGrow(Run(capacity, full, before), a);
      EveryRunIsGood(capacity, full, before);
      NextIsGood(capacity, Run(capacity, full, before), a);
    }
  }

  /** First in, first out. */
  predicate Fifo(s: State) {
    s.popped <= s.pushed
  }

  /** At every moment of every schedule, what was popped is what was pushed, in order, up to some point;
      what is left is in the entries and never exceeds the capacity: for capacities that divide 2^32, and
      for any other until the counter of pushes reaches 2^32. */
  lemma FifoUnderEverySchedule(capacity: nat, full: bool, schedule: seq<Action>)
    requires 0 < capacity < U32_LIMIT
    requires U32_LIMIT % capacity == 0 || |Run(capacity, full, schedule).pushed| < U32_LIMIT
    ensures var s := Run(capacity, full, schedule);
      && Fifo(s) && |s.pushed| - |s.popped| <= capacity
      && |s.entries| == capacity
      && forall n :: |s.popped| <= n < |s.pushed| ==> s.entries[Cell(capacity, n)] == s.pushed[n]
  {
    hide Run, Cell;
    EveryRunIsGood(capacity, full, schedule);
  }

  /** A push is refused only if the ring was full when the tail was loaded, and a pop finds nothing only
      if the ring was empty when the head was loaded; otherwise the entry read is the oldest. */
  lemma AnswersAreHonest(capacity: nat, s: State)
    requires Good(capacity, s) && Room(capacity, s)
    ensures s.producer.TailLoaded? ==>
      (ProducerNext(s).producer.Resting? <==> |s.pushed| == s.producer.seen + capacity)
    ensures s.consumer.TailSeen? ==>
      if s.consumer.seen == |s.popped| then ConsumerNext(s).consumer == Idle
      else |s.popped| < |s.pushed| && ConsumerNext(s).consumer == ValueRead(s.pushed[|s.popped|], s.tail)
  {
    hide Cell, ProducerNext, ConsumerNext;
    if s.producer.TailLoaded? { WriteIsGood(capacity, s); }
    if s.consumer.TailSeen? {
      ReadIsGood(capacity, s);
      ReadGoesOn(s);
    }
  }

  lemma ReadGoesOn(s: State)
    requires s.consumer.TailSeen?
    ensures var c := ConsumerNext(s).consumer; c == Idle || (c.ValueRead? && c.tail == s.consumer.tail)
    ensures ConsumerNext(s).pushed == s.pushed && ConsumerNext(s).popped == s.popped
    ensures ConsumerNext(s).tail == s.tail
  {
  }

  // ----- Whole calls are schedules -----

  function Calls(op: Op): seq<Action> {
    match op
    case Push(value) => [StartPush(value), Produce, Produce, Produce]
    case Pop => [StartPop, Consume, Consume, Consume]
  }

  ghost function Expand(ops: seq<Op>): seq<Action> {
    if ops == [] then [] else Expand(ops[..|ops| - 1]) + Calls(ops[|ops| - 1])
  }

  function RingOf(s: State): Ring {
    Ring(s.entries, s.head, s.tail)
  }

  predicate AtRest(s: State) {
    s.producer == Resting && s.consumer == Idle
  }

  /** The state after a whole call. */
  function Called(s: State, op: Op): State {
    var (r, answer) := Step(RingOf(s), op);
    State(r.entries, r.head, r.tail, Resting, Idle,
          if op.Push? && answer == Pushed then s.pushed + [op.value] else s.pushed,
          if answer.Taken? then s.popped + [answer.value] else s.popped)
  }

  lemma Last(capacity: nat, full: bool, schedule: seq<Action>, a: Action)
    ensures Run(capacity, full, schedule + [a]) == Next(Run(capacity, full, schedule), a)
  {
    hide Next;
    assert (schedule + [a])[..|schedule|] == schedule;
  }

  lemma FourSteps(capacity: nat, full: bool, schedule: seq<Action>, a: Action, b: Action)
    ensures var s := Run(capacity, full, schedule);
      Run(capacity, full, schedule + [a, b, b, b]) == Next(Next(Next(Next(s, a), b), b), b)
  {
    hide Next, Run;
    Last(capacity, full, schedule, a);
    Last(capacity, full, schedule + [a], b);
    Last(capacity, full, schedule + [a] + [b], b);
    Last(capacity, full, schedule + [a] + [b] + [b], b);
    assert schedule + [a] + [b] + [b] + [b] == schedule + [a, b, b, b];
  }

  lemma PushRuns(s: State, v: nat)
    requires AtRest(s)
    ensures Called(s, Push(v)) == Next(Next(Next(Next(s, StartPush(v)), Produce), Produce), Produce)
  {
    hide WrappingSub;
    var s2 := Next(Next(s, StartPush(v)), Produce);
    assert s2 == s.(producer := TailLoaded(v, s.head, s.tail, |s.popped|));
    if PushTo(RingOf(s), v).None? { assert Next(s2, Produce) == s; }
  }

  lemma PopRuns(s: State)
    requires AtRest(s)
    ensures Called(s, Pop) == Next(Next(Next(Next(s, StartPop), Consume), Consume), Consume)
  {
    var s2 := Next(Next(s, StartPop), Consume);
    assert s2 == s.(consumer := TailSeen(s.head, s.tail, |s.pushed|));
    if PopFrom(RingOf(s)).None? { assert Next(s2, Consume) == s; }
  }

  lemma CallIsSchedule(capacity: nat, full: bool, schedule: seq<Action>, op: Op)
    requires AtRest(Run(capacity, full, schedule))
    ensures Run(capacity, full, schedule + Calls(op)) == Called(Run(capacity, full, schedule), op)
  {
    hide Run, Next, Called;
    match op
    case Push(v) =>
      PushRuns(Run(capacity, full, schedule), v);
      FourSteps(capacity, full, schedule, StartPush(v), Produce);
    case Pop =>
      PopRuns(Run(capacity, full, schedule));
      FourSteps(capacity, full, schedule, StartPop, Consume);
  }

  /** A history of whole calls as a schedule: the ring is the ring of the calls, and while the ring is a
      queue the pushes are the pops followed by the queue. */
  lemma {:induction false} ExpandRuns(capacity: nat, ops: seq<Op>)
    requires 0 < capacity < U32_LIMIT
    ensures var s := Run(capacity, false, Expand(ops));
      AtRest(s) && RingOf(s) == After(capacity, ops)
    ensures var s := Run(capacity, false, Expand(ops));
      Accepted(capacity, ops) <= U32_LIMIT ==>
        |s.pushed| == Accepted(capacity, ops) && |s.popped| + |QueueAfter(capacity, ops)| == |s.pushed|
    ensures var s := Run(capacity, false, Expand(ops));
      (forall i :: 0 <= i < |ops| && ops[i].Push? ==> ops[i].value == 0) ==>
        forall i :: 0 <= i < |s.pushed| ==> s.pushed[i] == 0
    decreases |ops|
  {
    hide Run, Step, QueueStep, Calls;
    if ops == [] {
      RunNothing(capacity);
    } else {
      var before, op := ops[..|ops| - 1], ops[|ops| - 1];
      ExpandRuns(capacity, before);
      CallIsSchedule(capacity, false, Expand(before), op);
      CallCounts(Run(capacity, false, Expand(before)), op);
      if Accepted(capacity, ops) <= U32_LIMIT { SameAnswer(capacity, before, op); }
    }
  }

  lemma RunNothing(capacity: nat)
    ensures Run(capacity, false, []) == Init(capacity, false)
  {
  }

  lemma CallCounts(s: State, op: Op)
    ensures var s', answer := Called(s, op), Step(RingOf(s), op).1;
      && RingOf(s') == Step(RingOf(s), op).0 && AtRest(s')
      && |s'.pushed| == |s.pushed| + (if answer == Pushed then 1 else 0)
      && |s'.popped| == |s.popped| + (if answer.Taken? then 1 else 0)
      && (forall i :: 0 <= i < |s.pushed| ==> s'.pushed[i] == s.pushed[i])
      && (|s'.pushed| > |s.pushed| ==> op.Push? && s'.pushed[|s.pushed|] == op.value)
  {
  }

  /** The ring answers as the queue does, up to the push that brings the counter to 2^32. */
  lemma SameAnswer(capacity: nat, ops: seq<Op>, op: Op)
    requires 0 < capacity < U32_LIMIT
    requires Accepted(capacity, ops)
      + (if QueueStep(capacity, QueueAfter(capacity, ops), op).1 == Pushed then 1 else 0) <= U32_LIMIT
    ensures Step(After(capacity, ops), op).1 == QueueStep(capacity, QueueAfter(capacity, ops), op).1
    ensures var (q, answer) := QueueStep(capacity, QueueAfter(capacity, ops), op);
      |q| + (if answer.Taken? then 1 else 0) == |QueueAfter(capacity, ops)| + (if answer == Pushed then 1 else 0)
  {
    hide Refines, Step, Cell, After, QueueAfter, Accepted;
    var taken := RunRefines(capacity, ops);
    var q := QueueAfter(capacity, ops);
    match op
    case Push(value) =>
      if |q| < capacity {
        PushRefines(capacity, After(capacity, ops), taken, q, value);
      } else {
        FullPushRefines(capacity, After(capacity, ops), taken, q, value);
      }
    case Pop => PopRefines(capacity, After(capacity, ops), taken, q);
  }

  // ----- The counter-example for every other capacity -----

  lemma {:induction false} LoadPushesZeros(first: nat, n: nat)
    ensures forall i :: 0 <= i < |Load(first, n)| && Load(first, n)[i].Push? ==> Load(first, n)[i].value == 0
    decreases n
  {
    if n == 0 {
      ShuttlePushesZeros(first);
    } else {
      LoadPushesZeros(first, n - 1);
    }
  }

  lemma {:induction false} ShuttlePushesZeros(n: nat)
    ensures forall i :: 0 <= i < |Shuttle(n)| && Shuttle(n)[i].Push? ==> Shuttle(n)[i].value == 0
  {
    if n > 0 { ShuttlePushesZeros(n - 1); }
  }

  /** For every capacity that leaves a remainder some schedule pops what was pushed last. */
  lemma StraddleBreaksFifo(capacity: nat)
    requires 0 < capacity < U32_LIMIT && U32_LIMIT % capacity != 0
    ensures exists schedule: seq<Action> :: !Fifo(Run(capacity, false, schedule))
  {
    hide After, QueueAfter, Accepted, Load, Step, QueueStep, Run, Expand, Calls, Called;
    var rest := U32_LIMIT % capacity;
    var ops := Load(U32_LIMIT - rest, rest);
    var more := ops + [Push(1)];
    LoadLeavesZeros(capacity, U32_LIMIT - rest, rest);
    LoadPushesZeros(U32_LIMIT - rest, rest);
    ExpandRuns(capacity, ops);
    StraddleOverwrites(capacity);
    ExpandSnoc(ops, Push(1));
    ExpandSnoc(more, Pop);
    var s := Run(capacity, false, Expand(ops));
    CallIsSchedule(capacity, false, Expand(ops), Push(1));
    var s1 := Called(s, Push(1));
    ExpandRuns(capacity, more);
    CallIsSchedule(capacity, false, Expand(more), Pop);
    NewcomerFirst(s, s1);
    assert !Fifo(Run(capacity, false, Expand(more + [Pop])));
  }

  lemma ExpandSnoc(ops: seq<Op>, op: Op)
    ensures Expand(ops + [op]) == Expand(ops) + Calls(op)
  {
    hide Calls;
    assert (ops + [op])[..|ops|] == ops;
  }

  lemma NewcomerFirst(s: State, s1: State)
    requires s1 == Called(s, Push(1)) && Step(RingOf(s1), Pop).1 == Taken(1)
    requires |s.popped| < |s.pushed| && forall i :: 0 <= i < |s.pushed| ==> s.pushed[i] == 0
    ensures !Fifo(Called(s1, Pop))
  {
    var s2 := Called(s1, Pop);
    assert s1.popped == s.popped;
    assert s2.popped[|s.popped|] == 1 && s2.pushed[|s.popped|] == 0;
  }

  /** First in, first out under every schedule of every length, exactly for the capacities that divide
      2^32. */
  lemma FifoForeverIff(capacity: nat)
    requires 0 < capacity < U32_LIMIT
    ensures (forall full: bool, schedule: seq<Action> :: Fifo(Run(capacity, full, schedule)))
       <==> U32_LIMIT % capacity == 0
  {
    hide Run, Fifo;
    if U32_LIMIT % capacity == 0 {
      forall full: bool, schedule: seq<Action>
        ensures Fifo(Run(capacity, full, schedule))
      {
        FifoUnderEverySchedule(capacity, full, schedule);
      }
    } else {
      StraddleBreaksFifo(capacity);
    }
  }
}
