/**
 The frame protocol end to end: the scenario engine on one side (acquire a slot, write the
 frame id, push it ready, push an event), the native consumer on the other (pop a ready slot,
 pop an event, read the slot, release it), interleaved call by call over the real ring values:
 wrapping index rings for the slots and the byte ring for the events.
 */
module FrameProtocol {
  import opened Bytes
  import opened RingLayout
  import V = RingValue
  import I = IndexRing
  import S = SlotPool

  const EVENT_ENVELOPE := Envelope(0x13, 1, 0)
  const EVENT_LEN := 16
  const FRAME_SLOT_COUNT := 8
  const EVENT_RING_CAPACITY := 512 * 1024

  datatype Producer = Acquire | WriteFrame(slot: nat) | PushReady(slot: nat) | PushEvent(slot: nat)

  datatype Consumer = PopReady | PopEvent(slot: nat) | ReadSlot(slot: nat, frame: nat, named: nat) | Release(slot: nat)

  /** One delivery: the ready slot, the frame and slot named by the event, the slot's word. */
  datatype Delivery = Delivery(slot: nat, frame: nat, named: nat, content: nat)

  /** The shared channels, the two sides, the id of the frame in production, what the consumer
      has seen, and how often a push met a full ring or an event had the wrong length. */
  datatype State = State(
    pool: S.Pool, slots: seq<seq<Byte>>, events: V.Ring,
    producer: Producer, consumer: Consumer, frame: nat,
    seen: seq<Delivery>, stalls: nat)

  datatype Turn = Engine | Drainer

  function EventRecord(frame: nat, slot: nat): Record {
    Record(EVENT_ENVELOPE, Le32(frame) + Le32(slot))
  }

  /** The sixteen bytes of an event on the ring: its length, the event tag and version, no flags, then
      frame id and slot, low bytes first. */
  lemma EventOnTheWire(frame: nat, slot: nat)
    ensures RecordBytes(EventRecord(frame, slot))
         == [16, 0, 0, 0, 0x13, 1, 0, 0,
             frame % 0x100, frame / 0x100 % 0x100, frame / 0x1_0000 % 0x100, frame / 0x100_0000 % 0x100,
             slot % 0x100, slot / 0x100 % 0x100, slot / 0x1_0000 % 0x100, slot / 0x100_0000 % 0x100]
  {
    RecordOnTheWire(EventRecord(frame, slot), 0);
  }

  function Start(n: nat, capacity: nat): State {
    State(S.Start(n).pool, seq(n, _ => Zeros(4)), V.New(capacity), Acquire, PopReady, 0, [], 0)
  }

  function EngineStep(s: State, frames: nat): State {
    match s.producer
    case Acquire =>
      if s.frame >= frames then s
      else (match I.PopFrom(s.pool.free)
            case None => s
            case Some((x, free)) => s.(pool := s.pool.(free := free), producer := WriteFrame(x)))
    case WriteFrame(x) =>
      if x >= |s.slots| then s.(stalls := s.stalls + 1)
      else s.(slots := s.slots[x := Le32(s.frame)], producer := PushReady(x))
    case PushReady(x) =>
      (match I.PushTo(s.pool.ready, x)
       case None => s.(stalls := s.stalls + 1)
       case Some(ready) => s.(pool := s.pool.(ready := ready), producer := PushEvent(x)))
    case PushEvent(x) =>
      (match V.Send(s.events, EventRecord(s.frame, x))
       case None => s.(stalls := s.stalls + 1)
       case Some(events) => s.(events := events, producer := Acquire, frame := s.frame + 1))
  }

  function DrainerStep(s: State): State {
    match s.consumer
    case PopReady =>
      (match I.PopFrom(s.pool.ready)
       case None => s
       case Some((x, ready)) => s.(pool := s.pool.(ready := ready), consumer := PopEvent(x)))
    case PopEvent(x) =>
      (match V.Receive(s.events)
       case (None, events) => s.(events := events)
       case (Some(r), events) =>
         if |r.payload| != 8 then s.(stalls := s.stalls + 1)
         else s.(events := events, consumer := ReadSlot(x, FromLe32(r.payload[..4]), FromLe32(r.payload[4..]))))
    case ReadSlot(x, f, e) =>
      if x >= |s.slots| || |s.slots[x]| != 4 then s.(stalls := s.stalls + 1)
      else s.(seen := s.seen + [Delivery(x, f, e, FromLe32(s.slots[x]))], consumer := Release(x))
    case Release(x) =>
      (match I.PushTo(s.pool.free, x)
       case None => s.(stalls := s.stalls + 1)
       case Some(free) => s.(pool := s.pool.(free := free), consumer := PopReady))
  }

  function Step(s: State, frames: nat, t: Turn): State {
    match t
    case Engine => EngineStep(s, frames)
    case Drainer => DrainerStep(s)
  }

  ghost function Run(n: nat, capacity: nat, frames: nat, turns: seq<Turn>): State
    decreases |turns|
  {
    if turns == [] then Start(n, capacity)
    else Step(Run(n, capacity, frames, turns[..|turns| - 1]), frames, turns[|turns| - 1])
  }

  // ----- The invariant -----

  /** What the ring values stand for: the queued indices with their pop counts, the event bytes. */
  datatype Ghosts = Ghosts(fOut: nat, free: seq<nat>, rOut: nat, ready: seq<nat>, view: View)

  function InHand(p: Producer): seq<nat> {
    match p
    case Acquire => []
    case WriteFrame(x) => [x]
    case PushReady(x) => [x]
    case PushEvent(_) => []
  }

  function Held(c: Consumer): seq<nat> {
    match c
    case PopReady => []
    case PopEvent(x) => [x]
    case ReadSlot(x, _, _) => [x]
    case Release(x) => [x]
  }

  /** Slots whose event has not been popped, oldest first. */
  function Pending(c: Consumer, ready: seq<nat>): seq<nat> {
    if c.PopEvent? then [c.slot] + ready else ready
  }

  /** Events popped so far. */
  function Popped(s: State): nat {
    if s.consumer.ReadSlot? then |s.seen| + 1 else |s.seen|
  }

  /** Everything about numbers and slots: the i-th pending slot carries frame `first + i`, and the
      queued events name exactly the pending slots that have been announced. */
  ghost predicate Matched(first: nat, frame: nat, pushing: Option<nat>, pending: seq<nat>,
                          events: seq<Record>, slots: seq<seq<Byte>>)
  {
    && first <= frame
    && |events| == frame - first
    && (match pushing
        case None => |pending| == |events|
        case Some(x) => |pending| == |events| + 1 && pending[|events|] == x)
    && (forall i :: 0 <= i < |events| ==> events[i] == EventRecord(first + i, pending[i]))
    && (forall i :: 0 <= i < |pending| ==> pending[i] < |slots| && slots[pending[i]] == Le32(first + i))
  }

  ghost predicate DrainerOk(s: State) {
    match s.consumer
    case ReadSlot(x, f, e) =>
      f == |s.seen| && e == x && x < |s.slots| && s.slots[x] == Le32(f)
    case _ => true
  }

  ghost predicate EngineOk(s: State) {
    s.producer.PushReady? ==> s.producer.slot < |s.slots| && s.slots[s.producer.slot] == Le32(s.frame)
  }

  ghost predicate LogOk(seen: seq<Delivery>) {
    forall i :: 0 <= i < |seen| ==>
      seen[i].frame == i && seen[i].content == i && seen[i].named == seen[i].slot
  }

  function Pushing(p: Producer): Option<nat> {
    if p.PushEvent? then Some(p.slot) else None
  }

  /** Every queued event has the event length, and no byte is lost at the end of the region. */
  ghost predicate EventsTight(capacity: nat, v: View) {
    (v.Wrapped? ==> v.end + EVENT_LEN > capacity)
    && forall r :: r in v.Queue() ==> RecordLen(|r.payload|) == EVENT_LEN
  }

  ghost predicate SlotsOk(n: nat, s: State, g: Ghosts) {
    && S.PoolInv(n, s.pool, g.fOut, g.free, g.rOut, g.ready)
    && S.Partition(n, g.free, InHand(s.producer), g.ready, Held(s.consumer))
    && |s.slots| == n
  }

  /** Pushes into either ring so far, bounded by the frames started. */
  ghost predicate CountsOk(n: nat, frames: nat, s: State, g: Ghosts) {
    && s.frame <= frames
    && (!s.producer.Acquire? ==> s.frame < frames)
    && g.rOut + |g.ready| == s.frame + (if s.producer.PushEvent? then 1 else 0)
    && g.fOut + |g.free| == n + |s.seen| - (if s.consumer.Release? then 1 else 0)
    && (s.consumer.Release? ==> |s.seen| > 0)
  }

  ghost predicate EventsOk(capacity: nat, s: State, g: Ghosts) {
    && V.Holds(s.events, g.view) && |s.events.data| == capacity
    && EventsTight(capacity, g.view)
    && Matched(Popped(s), s.frame, Pushing(s.producer), Pending(s.consumer, g.ready),
               g.view.Queue(), s.slots)
  }

  ghost predicate Inv(n: nat, capacity: nat, frames: nat, s: State, g: Ghosts) {
    && SlotsOk(n, s, g)
    && CountsOk(n, frames, s, g)
    && EventsOk(capacity, s, g)
    && EngineOk(s) && DrainerOk(s) && LogOk(s.seen)
    && s.stalls == 0
  }

  /** Frame ids are 32-bit words; the index ring counters must not wrap badly within the run;
      the event ring has room for an event per slot. */
  predicate ConfigOk(n: nat, capacity: nat, frames: nat) {
    && 0 < n < U32_LIMIT && frames <= U32_LIMIT
    && (U32_LIMIT % n == 0 || n + frames < U32_LIMIT)
    && V.CapacityOk(capacity) && EVENT_LEN * (n + 3) <= capacity
  }

  // ----- The engine's steps -----

  lemma AcquireSlots(n: nat, s: State, g: Ghosts, frames: nat)
    requires SlotsOk(n, s, g) && s.producer.Acquire? && s.frame < frames
    ensures g.free == [] ==> EngineStep(s, frames) == s
    ensures g.free != [] ==>
      (EngineStep(s, frames)
         == s.(pool := EngineStep(s, frames).pool, producer := WriteFrame(g.free[0]))
       && SlotsOk(n, EngineStep(s, frames), g.(fOut := g.fOut + 1, free := g.free[1..])))
  {
    hide I.Refines, I.Indices, I.PopFrom;
    S.PopKeeps(n, s.pool.free, g.fOut, g.free);
    if g.free != [] { S.TakeFirst(g.free); }
  }

  lemma AcquireKeepsInv(n: nat, capacity: nat, frames: nat, s: State, g: Ghosts) returns (g': Ghosts)
    requires Inv(n, capacity, frames, s, g) && s.producer.Acquire?
    ensures Inv(n, capacity, frames, EngineStep(s, frames), g')
  {
    hide SlotsOk, V.Holds, Matched, LogOk, EventsTight;
    g' := g;
    if s.frame < frames {
      AcquireSlots(n, s, g, frames);
      if g.free != [] {
        hide EngineStep;
        g' := g.(fOut := g.fOut + 1, free := g.free[1..]);
      }
    }
  }

  /** A slot in the producer's hand is in no other place. */
  lemma InHandAlone(n: nat, s: State, g: Ghosts, x: nat)
    requires SlotsOk(n, s, g) && InHand(s.producer) == [x]
    ensures x < n && x !in g.ready && x !in Held(s.consumer)
  {
    hide S.PoolInv, S.Partition, I.Indices;
    S.PartitionOnce(n, g.free, InHand(s.producer), g.ready, Held(s.consumer), x);
    assert multiset(InHand(s.producer))[x] == 1;
    assert multiset(g.ready)[x] == 0 && multiset(Held(s.consumer))[x] == 0;
    assert x in g.ready ==> x in multiset(g.ready);
    assert x in Held(s.consumer) ==> x in multiset(Held(s.consumer));
  }

  lemma WriteKeepsInv(n: nat, capacity: nat, frames: nat, s: State, g: Ghosts)
    requires Inv(n, capacity, frames, s, g) && s.producer.WriteFrame?
    ensures Inv(n, capacity, frames, EngineStep(s, frames), g)
  {
    hide S.PoolInv, S.Partition, V.Holds, LogOk, EventsTight, Le32;
    var x := s.producer.slot;
    InHandAlone(n, s, g, x);
    var pending := Pending(s.consumer, g.ready);
    forall i | 0 <= i < |pending| ensures pending[i] != x {
      if s.consumer.PopEvent? && i > 0 { assert pending[i] == g.ready[i - 1]; }
    }
  }

  lemma PushReadySlots(n: nat, s: State, g: Ghosts, frames: nat)
    requires SlotsOk(n, s, g) && s.producer.PushReady? && S.Safe(n, g.rOut + |g.ready|)
    ensures EngineStep(s, frames) == s.(pool := EngineStep(s, frames).pool, producer := PushEvent(s.producer.slot))
    ensures SlotsOk(n, EngineStep(s, frames), g.(ready := g.ready + [s.producer.slot]))
  {
    hide I.Refines, I.Indices, I.PushTo;
    S.PartitionCounts(n, g.free, InHand(s.producer), g.ready, Held(s.consumer));
    S.PushKeeps(n, s.pool.ready, g.rOut, g.ready, s.producer.slot);
  }

  lemma PushReadyKeepsInv(n: nat, capacity: nat, frames: nat, s: State, g: Ghosts) returns (g': Ghosts)
    requires ConfigOk(n, capacity, frames)
    requires Inv(n, capacity, frames, s, g) && s.producer.PushReady?
    ensures Inv(n, capacity, frames, EngineStep(s, frames), g')
  {
    hide SlotsOk, EngineStep, V.Holds, Matched, LogOk, EventsTight, Le32;
    var x := s.producer.slot;
    PushReadySlots(n, s, g, frames);
    g' := g.(ready := g.ready + [x]);
    InHandIsSlot(n, s, g, x);
    ReadyMatched(Popped(s), s.frame, s.consumer, g.ready, x, g.view.Queue(), s.slots);
  }

  lemma InHandIsSlot(n: nat, s: State, g: Ghosts, x: nat)
    requires SlotsOk(n, s, g) && InHand(s.producer) == [x]
    ensures x < n == |s.slots|
  {
    InHandAlone(n, s, g, x);
  }

  lemma ReadyMatched(first: nat, frame: nat, c: Consumer, ready: seq<nat>, x: nat,
                     events: seq<Record>, slots: seq<seq<Byte>>)
    requires Matched(first, frame, None, Pending(c, ready), events, slots)
    requires x < |slots| && slots[x] == Le32(frame)
    ensures Matched(first, frame, Some(x), Pending(c, ready + [x]), events, slots)
  {
    hide Le32, EventRecord;
    PendingGrows(c, ready, x);
    var pending := Pending(c, ready);
    forall i | 0 <= i < |pending| + 1
      ensures (pending + [x])[i] < |slots| && slots[(pending + [x])[i]] == Le32(first + i)
    {
      if i < |pending| { assert slots[pending[i]] == Le32(first + i); }
    }
  }

  lemma PendingGrows(c: Consumer, ready: seq<nat>, x: nat)
    ensures Pending(c, ready + [x]) == Pending(c, ready) + [x]
  {
  }

  lemma PushEventKeepsInv(n: nat, capacity: nat, frames: nat, s: State, g: Ghosts) returns (g': Ghosts)
    requires ConfigOk(n, capacity, frames)
    requires Inv(n, capacity, frames, s, g) && s.producer.PushEvent?
    ensures Inv(n, capacity, frames, EngineStep(s, frames), g')
  {
    hide SlotsOk, V.Holds, V.Send, LogOk, Le32, RecordLen, Matched, EventRecord, EventsTight;
    var r, x := EventRecord(s.frame, s.producer.slot), s.producer.slot;
    FewEvents(n, s, g);
    EventLength(s.frame, x);
    EventRoom(capacity, s.events, g.view, r);
    var v' := V.SendAppends(s.events, g.view, r);
    V.SizesKept(s.events, r);
    StaysTight(capacity, g.view, v', r);
    g' := g.(view := v');
    SlotsFrame(n, s, EngineStep(s, frames), g, g');
    EventMatched(Popped(s), s.frame, x, Pending(s.consumer, g.ready), g.view.Queue(), s.slots);
  }

  lemma SlotsFrame(n: nat, s: State, s': State, g: Ghosts, g': Ghosts)
    requires SlotsOk(n, s, g) && g' == g.(view := g'.view)
    requires s'.pool == s.pool && s'.slots == s.slots
    requires InHand(s'.producer) == InHand(s.producer) && Held(s'.consumer) == Held(s.consumer)
    ensures SlotsOk(n, s', g')
  {
  }

  /** There are never more queued events than slots. */
  lemma FewEvents(n: nat, s: State, g: Ghosts)
    requires SlotsOk(n, s, g)
    requires Matched(Popped(s), s.frame, Pushing(s.producer), Pending(s.consumer, g.ready), g.view.Queue(), s.slots)
    ensures |g.view.Queue()| <= |Pending(s.consumer, g.ready)| <= n
  {
    hide S.PoolInv, S.Partition;
    S.PartitionCounts(n, g.free, InHand(s.producer), g.ready, Held(s.consumer));
  }

  lemma StaysTight(capacity: nat, v: View, v': View, r: Record)
    requires EventsTight(capacity, v) && RecordLen(|r.payload|) == EVENT_LEN
    requires v'.Queue() == v.Queue() + [r]
    requires v'.Wrapped? ==> (v.Wrapped? && v'.end == v.end) || v'.end + EVENT_LEN > capacity
    ensures EventsTight(capacity, v')
  {
    hide RecordLen;
  }

  lemma EventMatched(first: nat, frame: nat, x: nat, pending: seq<nat>, events: seq<Record>, slots: seq<seq<Byte>>)
    requires Matched(first, frame, Some(x), pending, events, slots)
    ensures Matched(first, frame + 1, None, pending, events + [EventRecord(frame, x)], slots)
  {
    hide Le32, EventRecord;
  }

  lemma EventLength(frame: nat, slot: nat)
    ensures RecordLen(|EventRecord(frame, slot).payload|) == EVENT_LEN
  {
  }

  lemma {:induction false} UniformLength(q: seq<Record>)
    requires forall r :: r in q ==> RecordLen(|r.payload|) == EVENT_LEN
    ensures |Encode(q)| == EVENT_LEN * |q|
  {
    hide RecordBytes, RecordLen;
    if q != [] {
      assert q[0] in q;
      UniformLength(q[1..]);
    }
  }

  /** With an event per slot outstanding at most, the event ring never refuses. */
  lemma EventRoom(capacity: nat, r: V.Ring, v: View, event: Record)
    requires V.Holds(r, v) && |r.data| == capacity && EventsTight(capacity, v)
    requires RecordLen(|event.payload|) == EVENT_LEN && EVENT_LEN * (|v.Queue()| + 3) <= capacity
    ensures V.Send(r, event).Some?
  {
    hide RecordBytes, RecordLen, Encode, V.Placed, Le32;
    match v {
      case Straight(q) => UniformLength(q);
      case Wrapped(front, end, back) =>
        assert forall x :: x in front || x in back ==> x in v.Queue();
        UniformLength(front);
        UniformLength(back);
    }
  }

  // ----- The consumer's steps -----

  lemma PopReadySlots(n: nat, s: State, g: Ghosts)
    requires SlotsOk(n, s, g) && s.consumer.PopReady?
    ensures g.ready == [] ==> DrainerStep(s) == s
    ensures g.ready != [] ==>
      (DrainerStep(s) == s.(pool := DrainerStep(s).pool, consumer := PopEvent(g.ready[0]))
       && SlotsOk(n, DrainerStep(s), g.(rOut := g.rOut + 1, ready := g.ready[1..])))
  {
    hide I.Refines, I.Indices, I.PopFrom;
    S.PopKeeps(n, s.pool.ready, g.rOut, g.ready);
    if g.ready != [] { S.TakeFirst(g.ready); }
  }

  lemma PopReadyKeepsInv(n: nat, capacity: nat, frames: nat, s: State, g: Ghosts) returns (g': Ghosts)
    requires Inv(n, capacity, frames, s, g) && s.consumer.PopReady?
    ensures Inv(n, capacity, frames, DrainerStep(s), g')
  {
    hide SlotsOk, DrainerStep, V.Holds, Matched, LogOk, EventsTight;
    g' := g;
    PopReadySlots(n, s, g);
    if g.ready != [] {
      g' := g.(rOut := g.rOut + 1, ready := g.ready[1..]);
      assert Pending(PopEvent(g.ready[0]), g.ready[1..]) == g.ready;
    }
  }

  lemma PopEventKeepsInv(n: nat, capacity: nat, frames: nat, s: State, g: Ghosts) returns (g': Ghosts)
    requires ConfigOk(n, capacity, frames)
    requires Inv(n, capacity, frames, s, g) && s.consumer.PopEvent?
    ensures Inv(n, capacity, frames, DrainerStep(s), g')
  {
    hide SlotsOk, DrainerStep, V.Holds, V.Receive, LogOk, Le32, FromLe32, EventRecord, Matched, EventsTight;
    var x, q := s.consumer.slot, g.view.Queue();
    var v' := V.ReceivePops(s.events, g.view);
    g' := g;
    HeldIsSlot(n, s, g, x);
    if q == [] {
      NoEventYet(s, x);
    } else {
      OldestEvent(|s.seen|, s.frame, Pushing(s.producer), x, g.ready, q, s.slots);
      EventPopped(s, x);
      V.SizesKept(s.events, q[0]);
      PoppedTight(capacity, g.view, v');
      g' := g.(view := v');
      SlotsFrame(n, s, DrainerStep(s), g, g');
      PopMatched(|s.seen|, s.frame, Pushing(s.producer), x, g.ready, q, s.slots);
    }
  }

  lemma NoEventYet(s: State, x: nat)
    requires s.consumer == PopEvent(x) && V.Receive(s.events) == (None, s.events)
    ensures DrainerStep(s) == s
  {
    hide V.Receive;
  }

  lemma EventPopped(s: State, x: nat)
    requires s.consumer == PopEvent(x) && |s.seen| < U32_LIMIT && x < U32_LIMIT
    requires V.Receive(s.events).0 == Some(EventRecord(|s.seen|, x))
    ensures DrainerStep(s) == s.(events := V.Receive(s.events).1, consumer := ReadSlot(x, |s.seen|, x))
  {
    hide V.Receive, EventRecord;
    EventReadsBack(|s.seen|, x);
  }

  /** The oldest queued event names the slot the consumer is holding. */
  lemma OldestEvent(first: nat, frame: nat, pushing: Option<nat>, x: nat, ready: seq<nat>,
                    events: seq<Record>, slots: seq<seq<Byte>>)
    requires events != [] && Matched(first, frame, pushing, [x] + ready, events, slots)
    ensures first < frame && events[0] == EventRecord(first, x)
    ensures x < |slots| && slots[x] == Le32(first)
  {
    hide Le32, EventRecord;
    assert ([x] + ready)[0] == x;
  }

  lemma PoppedTight(capacity: nat, v: View, v': View)
    requires EventsTight(capacity, v) && v.Queue() != [] && v'.Queue() == v.Queue()[1..]
    requires v'.Wrapped? ==> v.Wrapped? && v'.end == v.end
    ensures EventsTight(capacity, v')
  {
    hide RecordLen;
  }

  lemma HeldIsSlot(n: nat, s: State, g: Ghosts, x: nat)
    requires SlotsOk(n, s, g) && Held(s.consumer) == [x]
    ensures x < n && x !in g.ready && x !in InHand(s.producer)
  {
    hide S.PoolInv, S.Partition, I.Indices;
    S.PartitionOnce(n, g.free, InHand(s.producer), g.ready, Held(s.consumer), x);
    assert multiset(Held(s.consumer))[x] == 1;
    assert multiset(g.ready)[x] == 0 && multiset(InHand(s.producer))[x] == 0;
    assert x in g.ready ==> x in multiset(g.ready);
    assert x in InHand(s.producer) ==> x in multiset(InHand(s.producer));
  }

  lemma EventReadsBack(frame: nat, slot: nat)
    requires frame < U32_LIMIT && slot < U32_LIMIT
    ensures var p := EventRecord(frame, slot).payload;
      |p| == 8 && FromLe32(p[..4]) == frame && FromLe32(p[4..]) == slot
  {
    hide Le32, FromLe32;
    Le32RoundTrip(frame);
    Le32RoundTrip(slot);
    assert (Le32(frame) + Le32(slot))[..4] == Le32(frame);
    assert (Le32(frame) + Le32(slot))[4..] == Le32(slot);
  }

  lemma PopMatched(first: nat, frame: nat, pushing: Option<nat>, x: nat, ready: seq<nat>,
                   events: seq<Record>, slots: seq<seq<Byte>>)
    requires events != [] && Matched(first, frame, pushing, [x] + ready, events, slots)
    ensures Matched(first + 1, frame, pushing, ready, events[1..], slots)
  {
    hide Le32, EventRecord;
    var pending := [x] + ready;
    forall i | 0 <= i < |ready| ensures ready[i] == pending[i + 1] {}
    forall i | 0 <= i < |ready|
      ensures ready[i] < |slots| && slots[ready[i]] == Le32(first + 1 + i)
    {
      assert slots[pending[i + 1]] == Le32(first + (i + 1));
    }
    forall i | 0 <= i < |events| - 1
      ensures events[1..][i] == EventRecord(first + 1 + i, ready[i])
    {
      assert events[i + 1] == EventRecord(first + (i + 1), pending[i + 1]);
    }
  }

  lemma ReadKeepsInv(n: nat, capacity: nat, frames: nat, s: State, g: Ghosts)
    requires ConfigOk(n, capacity, frames)
    requires Inv(n, capacity, frames, s, g) && s.consumer.ReadSlot?
    ensures Inv(n, capacity, frames, DrainerStep(s), g)
  {
    hide S.PoolInv, S.Partition, V.Holds, EventsTight, Le32, FromLe32;
    Le32RoundTrip(s.consumer.frame);
  }

  lemma ReleaseKeepsInv(n: nat, capacity: nat, frames: nat, s: State, g: Ghosts) returns (g': Ghosts)
    requires ConfigOk(n, capacity, frames)
    requires Inv(n, capacity, frames, s, g) && s.consumer.Release?
    ensures Inv(n, capacity, frames, DrainerStep(s), g')
  {
    hide I.Refines, I.Indices, I.PushTo, V.Holds, Matched, LogOk, EventsTight;
    var x := s.consumer.slot;
    SeenBounded(capacity, frames, s, g);
    S.PartitionCounts(n, g.free, InHand(s.producer), g.ready, Held(s.consumer));
    S.PushKeeps(n, s.pool.free, g.fOut, g.free, x);
    g' := g.(free := g.free + [x]);
  }

  lemma SeenBounded(capacity: nat, frames: nat, s: State, g: Ghosts)
    requires EventsOk(capacity, s, g) && s.frame <= frames
    ensures |s.seen| <= frames
  {
  }

  // ----- What every interleaving guarantees -----

  lemma StepKeepsInv(n: nat, capacity: nat, frames: nat, s: State, g: Ghosts, t: Turn) returns (g': Ghosts)
    requires ConfigOk(n, capacity, frames) && Inv(n, capacity, frames, s, g)
    ensures Inv(n, capacity, frames, Step(s, frames, t), g')
  {
    hide Inv, EngineStep, DrainerStep;
    g' := g;
    match t
    case Engine =>
      match s.producer {
       case Acquire => g' := AcquireKeepsInv(n, capacity, frames, s, g);
       case WriteFrame(_) => WriteKeepsInv(n, capacity, frames, s, g);
       case PushReady(_) => g' := PushReadyKeepsInv(n, capacity, frames, s, g);
       case PushEvent(_) => g' := PushEventKeepsInv(n, capacity, frames, s, g);}
    case Drainer =>
      match s.consumer {
       case PopReady => g' := PopReadyKeepsInv(n, capacity, frames, s, g);
       case PopEvent(_) => g' := PopEventKeepsInv(n, capacity, frames, s, g);
       case ReadSlot(_, _, _) => ReadKeepsInv(n, capacity, frames, s, g);
       case Release(_) => g' := ReleaseKeepsInv(n, capacity, frames, s, g);}
  }

  lemma StartInv(n: nat, capacity: nat, frames: nat)
    requires ConfigOk(n, capacity, frames)
    ensures Inv(n, capacity, frames, Start(n, capacity), Ghosts(0, I.Indices(n), 0, [], Straight([])))
  {
    hide I.Refines, I.Indices, S.Partition;
    S.StartKeeps(n);
    V.NewIsEmpty(capacity);
  }

  lemma {:induction false} RunKeepsInv(n: nat, capacity: nat, frames: nat, turns: seq<Turn>) returns (g: Ghosts)
    requires ConfigOk(n, capacity, frames)
    ensures Inv(n, capacity, frames, Run(n, capacity, frames, turns), g)
    decreases |turns|
  {
    hide Inv, Step;
    if turns == [] {
      StartInv(n, capacity, frames);
      g := Ghosts(0, I.Indices(n), 0, [], Straight([]));
    } else {
      var before := turns[..|turns| - 1];
      g := RunKeepsInv(n, capacity, frames, before);
      g := StepKeepsInv(n, capacity, frames, Run(n, capacity, frames, before), g, turns[|turns| - 1]);
    }
  }

  /** Under every interleaving the i-th frame taken is frame i, its event names the slot it came
      in, and the slot still holds what was written; no push is ever refused on the way, and at
      most one event per slot is outstanding. */
  lemma FramesArriveInOrder(n: nat, capacity: nat, frames: nat, turns: seq<Turn>)
    requires ConfigOk(n, capacity, frames)
    ensures var s := Run(n, capacity, frames, turns);
      && (forall i :: 0 <= i < |s.seen| ==>
            s.seen[i].frame == i && s.seen[i].content == i && s.seen[i].named == s.seen[i].slot)
      && |s.seen| <= s.frame <= frames
      && s.stalls == 0
      && |V.Drain(s.events, capacity)| <= n
  {
    hide Run, SlotsOk, V.Holds, EventsTight, Matched, V.Drain;
    var g := RunKeepsInv(n, capacity, frames, turns);
    var s := Run(n, capacity, frames, turns);
    FewEvents(n, s, g);
    SeenBounded(capacity, s.frame, s, g);
    V.QueueBound(s.events, g.view);
    V.DrainIsQueue(s.events, g.view, capacity);
  }

  /** The native harness: eight slots, a 512 KiB event ring, any number of 32-bit frame ids. */
  lemma NativeConfig(frames: nat)
    requires frames <= U32_LIMIT
    ensures ConfigOk(FRAME_SLOT_COUNT, EVENT_RING_CAPACITY, frames)
  {
  }

  // ----- Which frame ids the engine produces -----

  datatype Scenario =
    | Flood(frameCount: nat, current: nat)
    | Burst(bursts: nat, burstSize: nat, currentBurst: nat, currentOffset: nat)
    | Backpressure(frames: nat, produced: nat)
  {
    /** Frames asked for, and frames done. */
    ghost function Total(): nat {
      match this
      case Flood(n, _) => n
      case Burst(b, size, _, _) => b * size
      case Backpressure(n, _) => n
    }

    ghost function Done(): nat {
      match this
      case Flood(_, i) => i
      case Burst(_, size, b, o) => b * size + o
      case Backpressure(_, i) => i
    }

    /** The counts are 32-bit fields; the product of a burst's need not fit one. */
    ghost predicate Valid() {
      match this
      case Flood(n, i) => i <= n < U32_LIMIT
      case Burst(n, size, b, o) => b <= n < U32_LIMIT && size < U32_LIMIT && o == 0
      case Backpressure(n, i) => i <= n < U32_LIMIT
    }
  }

  /** The first `n` frame ids: they count up and wrap at 32 bits. */
  function Ids(n: nat): (ids: seq<nat>)
    ensures |ids| == n
  {
    seq(n, i => i % U32_LIMIT)
  }

  lemma NextId(n: nat)
    ensures Ids(n + 1) == Ids(n) + [n % U32_LIMIT]
  {
  }

  class ScenarioEngine {
    var state: Scenario
    /** The frame ids handed to produce_frame so far. */
    var produced: seq<nat>

    ghost predicate Valid()
      reads this
    {
      state.Valid() && produced == Ids(state.Done())
    }

    constructor (kind: Scenario)
      requires kind.Valid() && kind.Done() == 0
      ensures Valid() && state == kind && produced == []
    {
      state := kind;
      produced := [];
    }

    method ProduceFrame(frameId: nat)
      modifies this`produced
      ensures produced == old(produced) + [frameId]
    {
      produced := produced + [frameId];
    }

    /** The shared shape of the two counted scenarios. */
    method Batch(count: nat, limit: nat) returns (work: nat)
      requires count < U32_LIMIT
      requires produced == Ids(|produced|) && |produced| <= count && limit > 0
      modifies this`produced
      ensures produced == Ids(|produced|) && |produced| == |old(produced)| + work <= count
      ensures work == if count - |old(produced)| < limit then count - |old(produced)| else limit
    {
      work := 0;
      while |produced| < count
        invariant produced == Ids(|produced|) && |produced| == |old(produced)| + work <= count
        invariant work < limit || |produced| == count
        invariant work <= limit
        decreases count - |produced|
      {
        NextId(|produced|);
        ProduceFrame(|produced|);
        work := work + 1;
        if work >= limit { break; }
      }
    }

    /** One whole burst. */
    method BurstFrames(bursts: nat, size: nat, current: nat) returns (work: nat)
      requires current < bursts && produced == Ids(current * size)
      modifies this`produced
      ensures work == size && (current + 1) * size == current * size + size <= bursts * size
      ensures produced == Ids((current + 1) * size) && old(produced) <= produced
    {
      OneMoreBurst(current + 1, bursts, size);
      NextBurst(current, size);
      work := 0;
      while work < size
        invariant work <= size && produced == Ids(current * size + work) && old(produced) <= produced
      {
        NextId(current * size + work);
        ProduceFrame((current * size + work) % U32_LIMIT);
        work := work + 1;
      }
    }

    /** One poll: up to 100 frames of a flood, one whole burst, up to 50 frames under
        backpressure. Frame ids are consecutive across polls, modulo 2^32, and a poll that does
        no work means that every frame, or every non-empty burst, has been produced. */
    method Poll() returns (work: nat)
      requires Valid()
      modifies this
      ensures Valid()
      ensures state.Total() == old(state.Total()) && |produced| == |old(produced)| + work
      ensures old(produced) <= produced == Ids(|produced|)
      ensures work == match old(state)
                      case Flood(n, i) => if n - i < 100 then n - i else 100
                      case Burst(n, size, b, _) => if b < n then size else 0
                      case Backpressure(n, i) => if n - i < 50 then n - i else 50
      ensures state == match old(state)
                       case Flood(n, i) => Flood(n, i + work)
                       case Burst(n, size, b, o) => Burst(n, size, if b < n then b + 1 else b, o)
                       case Backpressure(n, i) => Backpressure(n, i + work)
      ensures work == 0 ==> |produced| == state.Total() || (state.Burst? && state.burstSize == 0)
    {
      match state {
        case Flood(frameCount, _) =>
          work := Batch(frameCount, 100);
          state := Flood(frameCount, |produced|);
        case Burst(bursts, burstSize, currentBurst, _) =>
          if currentBurst >= bursts { return 0; }
          work := BurstFrames(bursts, burstSize, currentBurst);
          state := Burst(bursts, burstSize, currentBurst + 1, 0);
        case Backpressure(frames, _) =>
          work := Batch(frames, 50);
          state := Backpressure(frames, |produced|);
      }
    }
  }

  lemma NextBurst(current: nat, size: nat)
    ensures (current + 1) * size == current * size + size
  {
  }

  lemma OneMoreBurst(b: nat, bursts: nat, size: nat)
    requires b <= bursts
    ensures b * size <= bursts * size
  {
  }
}
