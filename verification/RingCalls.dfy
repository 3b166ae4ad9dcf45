/**
 Whole sends and receives are schedules of the message ring's atomic steps: run alone from any moment
 of any schedule, the producer's steps amount to the ring's send and the consumer's to its receive.
 */
module RingCalls {
  import opened Bytes
  import opened RingLayout
  import opened RingConcurrency
  import V = RingValue

  /** The state a schedule leads to from `s`. */
  function After(s: State, schedule: seq<Action>): State
    decreases |schedule|
  {
    if schedule == [] then s else After(Next(s, schedule[0]), schedule[1..])
  }

  lemma {:induction false} AfterJoins(s: State, a: seq<Action>, b: seq<Action>)
    ensures After(s, a + b) == After(After(s, a), b)
    decreases |a|
  {
    hide Next;
    if a == [] {
      assert a + b == b;
    } else {
      assert (a + b)[1..] == a[1..] + b;
      AfterJoins(Next(s, a[0]), a[1..], b);
    }
  }

  lemma {:induction false} RunJoins(capacity: nat, schedule: seq<Action>, more: seq<Action>)
    ensures Run(capacity, schedule + more) == After(Run(capacity, schedule), more)
    decreases |more|
  {
    hide Next;
    if more == [] {
      assert schedule + more == schedule;
    } else {
      var longer := schedule + [more[0]];
      assert longer[..|longer| - 1] == schedule;
      assert schedule + more == longer + more[1..];
      RunJoins(capacity, longer, more[1..]);
    }
  }

  function RingOf(s: State): V.Ring {
    V.Ring(s.data, s.head, s.tail)
  }

  function Produces(n: nat): (a: seq<Action>)
    ensures |a| == n
  {
    seq(n, _ => Produce)
  }

  lemma OneMore(s: State, n: nat)
    ensures After(s, Produces(n + 1)) == After(ProducerNext(s), Produces(n))
  {
    hide ProducerNext;
    assert Produces(n + 1)[0] == Produce && Produces(n + 1)[1..] == Produces(n);
  }

  lemma Finished(s: State)
    ensures After(s, Produces(0)) == s
  {
  }

  // ----- Sending -----

  /** The writes of a program, one step each. */
  lemma {:induction false} WritesAll(s: State)
    requires s.producer.Writing? && forall w :: w in s.producer.todo ==> w.at < |s.data|
    ensures var todo := s.producer.todo;
      After(s, Produces(|todo|)) == s.(data := Apply(s.data, todo), producer := s.producer.(todo := []))
    decreases |s.producer.todo|
  {
    hide After;
    var todo := s.producer.todo;
    if todo == [] {
      Finished(s);
    } else {
      assert todo[0] in todo;
      var s1 := ProducerNext(s);
      OneMore(s, |todo| - 1);
      WritesAll(s1);
    }
  }

  /** A program writes what a send of the value ring places. */
  lemma ProgramPlaces(data: seq<Byte>, head: nat, tail: nat, p: Plan, r: Record)
    requires CursorsOk(|data|, head, tail) && Places(|data|, head, tail, RecordLen(|r.payload|), p)
    ensures Apply(data, Program(head, p, r)) == V.Placed(data, head, p, RecordBytes(r))
  {
    hide Unread, Writes, EnvelopeBytes, Overwrite, RecordLen, SentinelBytes, Apply, ThreePieces, BlockWrites, Padding;
    hide RecordBytes;
    var n := |r.payload|;
    var env, pad := EnvelopeBytes(r.envelope, n), Padding(n);
    var marked := if p.skip then Overwrite(data, head, SentinelBytes()) else data;
    if p.skip { ApplyBlock(data, head, SentinelBytes(), BlockWrites(p.at, env, r.payload, pad)); }
    ApplyBlockWrites(marked, p.at, env, r.payload, pad);
    RecordInPieces(r);
    OneBlock(marked, p.at, env, r.payload, pad);
  }

  /** Three pieces written in the producer's order are one block. */
  lemma OneBlock(data: seq<Byte>, at: nat, env: seq<Byte>, payload: seq<Byte>, pad: seq<Byte>)
    requires |env| == ENVELOPE_LEN && at + ENVELOPE_LEN + |payload| + |pad| <= |data|
    ensures ThreePieces(data, at, env, payload, pad) == Overwrite(data, at, env + payload + pad)
  {
    hide Overwrite, ThreePieces;
    var block := env + payload + pad;
    var a, b := ThreePieces(data, at, env, payload, pad), Overwrite(data, at, block);
    ThreePiecesJoin(data, at, env, payload, pad);
    OverwriteAt(data, at, block);
    SameBytes(a, b, at, |block|);
  }

  lemma SameBytes(a: seq<Byte>, b: seq<Byte>, at: nat, n: nat)
    requires |a| == |b| && at + n <= |a| && a[at..at + n] == b[at..at + n]
    requires forall i :: 0 <= i < at || at + n <= i < |a| ==> a[i] == b[i]
    ensures a == b
  {
    forall i | 0 <= i < |a| ensures a[i] == b[i] {
      if at <= i < at + n { assert a[at..at + n][i - at] == b[at..at + n][i - at]; }
    }
  }

  /** From any good state with the producer at rest, a send begun and stepped alone ends as the ring's send:
      the record in place and published, or nothing changed when it is refused. */
  lemma SendIsSchedule(s: State, r: Record) returns (n: nat)
    requires Good(s) && s.producer.Resting?
    ensures var sent := V.Send(RingOf(s), r);
      After(s, [Send(r)] + Produces(n))
      == if sent.None? then s
         else s.(data := sent.value.data, head := sent.value.head, sent := s.sent + [r])
  {
    hide After, Program, V.Placed, RecordBytes, RecordLen, Places, Unread, Inv, ConsumerInv, Reserve, Free, Apply;
    n := 0;
    var len := RecordLen(|r.payload|);
    var s1 := s.(producer := HeadLoaded(r, s.head));
    var s2 := s.(producer := TailLoaded(r, s.head, s.tail));
    if len < |s.data| {
      FirstStep(s, Send(r), s1);
      match Reserve(|s.data|, s.head, s.tail, len) {
        case None =>
          n := 2;
          OneMore(s1, 1);
          OneMore(s2, 0);
          Finished(s);
        case Some(p) =>
          var todo := Program(s.head, p, r);
          n := |todo| + 3;
          var s3 := s.(producer := Writing(r, p, todo));
          OneMore(s1, |todo| + 2);
          OneMore(s2, |todo| + 1);
          SendWrites(s3);
      }
      FirstThen(s, Send(r), s1, n);
    } else {
      FirstThen(s, Send(r), s, 0);
      Finished(s);
    }
  }

  lemma FirstStep(s: State, a: Action, s1: State)
    requires Next(s, a) == s1
    ensures After(s, [a]) == s1
  {
    hide Next;
  }

  lemma FirstThen(s: State, a: Action, s1: State, n: nat)
    requires Next(s, a) == s1
    ensures After(s, [a] + Produces(n)) == After(s1, Produces(n))
  {
    hide Next;
    assert ([a] + Produces(n))[0] == a && ([a] + Produces(n))[1..] == Produces(n);
  }

  /** All writes of a send, and the store of the head. */
  lemma SendWrites(s: State)
    requires s.producer.Writing? && Good(s.(producer := Resting))
    requires var r, p := s.producer.record, s.producer.plan;
      && Reserve(|s.data|, s.head, s.tail, RecordLen(|r.payload|)) == Some(p)
      && RecordLen(|r.payload|) < |s.data| && s.producer.todo == Program(s.head, p, r)
    ensures var r, p, todo := s.producer.record, s.producer.plan, s.producer.todo;
      After(s, Produces(|todo| + 1))
      == s.(data := V.Placed(s.data, s.head, p, RecordBytes(r)), head := p.next, producer := Resting,
            sent := s.sent + [r])
  {
    hide After, Program, V.Placed, RecordBytes, RecordLen, Unread, ConsumerInv, Reserve, Apply, Places;
    var r, p, todo := s.producer.record, s.producer.plan, s.producer.todo;
    GoodCursors(s.(producer := Resting));
    ReserveIsExact(|s.data|, s.head, s.tail, RecordLen(|r.payload|), p);
    ProgramFree(|s.data|, s.head, s.tail, p, r);
    ProgramPlaces(s.data, s.head, s.tail, p, r);
    WritesAll(s);
    var s1 := s.(data := Apply(s.data, todo), producer := Writing(r, p, []));
    assert Produces(|todo|) + Produces(1) == Produces(|todo| + 1);
    AfterJoins(s, Produces(|todo|), Produces(1));
    OneMore(s1, 0);
    Finished(ProducerNext(s1));
  }

  lemma GoodCursors(s: State)
    requires Good(s)
    ensures CursorsOk(|s.data|, s.head, s.tail)
  {
    hide ProducerInv, ConsumerInv, Encode;
  }

  // ----- Receiving -----

  function Consumes(n: nat): (a: seq<Action>)
    ensures |a| == n
  {
    seq(n, _ => Consume)
  }

  /** A peek, which may have to step over the wrap marker, and a pop. */
  function Receiving(): seq<Action> {
    ([Peek] + Consumes(6)) + ([Pop] + Consumes(2))
  }

  lemma ConsumesOn(s: State, a: Action, n: nat)
    ensures After(s, [a] + Consumes(n)) == After(Next(s, a), Consumes(n))
    ensures After(s, Consumes(n + 1)) == After(ConsumerNext(s), Consumes(n))
    ensures After(s, Consumes(0)) == s
  {
    hide ConsumerNext;
    assert ([a] + Consumes(n))[0] == a && ([a] + Consumes(n))[1..] == Consumes(n);
    assert Consumes(n + 1)[0] == Consume && Consumes(n + 1)[1..] == Consumes(n);
  }

  /** The consumer's steps of a receive, one after another. */
  function Peeking(s: State): State {
    Thrice(Thrice(Next(s, Peek)))
  }

  function Thrice(s: State): State {
    ConsumerNext(ConsumerNext(ConsumerNext(s)))
  }

  lemma ConsumesThree(s: State, n: nat)
    ensures After(s, Consumes(n + 3)) == After(Thrice(s), Consumes(n))
  {
    hide After, ConsumerNext, Next;
    ConsumesOn(s, Peek, n + 2);
    ConsumesOn(ConsumerNext(s), Peek, n + 1);
    ConsumesOn(ConsumerNext(ConsumerNext(s)), Peek, n);
  }

  lemma ReceivingSteps(s: State)
    ensures After(s, Receiving()) == ConsumerNext(ConsumerNext(Next(Peeking(s), Pop)))
  {
    hide After, ConsumerNext, Next, Thrice, Consumes;
    AfterJoins(s, [Peek] + Consumes(6), [Pop] + Consumes(2));
    ConsumesOn(s, Peek, 6);
    ConsumesThree(Next(s, Peek), 3);
    ConsumesThree(Thrice(Next(s, Peek)), 0);
    var s1 := Peeking(s);
    ConsumesOn(s1, Pop, 0);
    ConsumesOn(s1, Pop, 2);
    ConsumesOn(Next(s1, Pop), Pop, 1);
    ConsumesOn(ConsumerNext(Next(s1, Pop)), Pop, 0);
    ConsumesOn(ConsumerNext(ConsumerNext(Next(s1, Pop))), Pop, 0);
  }

  /** Three steps read the record at the tail. */
  lemma ReadsRecord(s: State)
    requires s.consumer == PeekTail(s.tail) && s.head != s.tail && s.tail + ENVELOPE_LEN <= |s.data|
    requires LenAt(s.data, s.tail) != SENTINEL && ENVELOPE_LEN <= LenAt(s.data, s.tail) <= |s.data| - s.tail
    ensures var total := LenAt(s.data, s.tail);
      ConsumerNext(ConsumerNext(ConsumerNext(s))) == s.(consumer := Peeked(RecordAt(s.data, s.tail, total), total))
  {
    hide LenAt, RecordAt;
  }

  /** On the marker three steps move the tail to the start. */
  lemma StepsOverMarker(s: State)
    requires s.consumer == PeekTail(s.tail) && s.head != s.tail && s.tail + 4 <= |s.data|
    requires LenAt(s.data, s.tail) == SENTINEL
    ensures ConsumerNext(ConsumerNext(ConsumerNext(s))) == s.(tail := 0, consumer := PeekTail(0))
  {
    hide LenAt;
  }

  lemma WaitsWhenSeen(s: State)
    requires s.consumer.Peeked? || s.consumer.Idle?
    ensures ConsumerNext(s) == s
  {
  }

  lemma PopsSeen(s: State)
    requires s.consumer.Peeked? && s.head != s.tail
    ensures ConsumerNext(ConsumerNext(Next(s, Pop)))
         == s.(tail := TailAfter(|s.data|, s.tail, s.consumer.total), consumer := Idle,
               received := s.received + [s.consumer.record])
  {
    hide TailAfter;
  }

  lemma NothingSeen(s: State)
    requires s.consumer == PeekTail(s.tail) && s.head == s.tail
    ensures ConsumerNext(ConsumerNext(s)) == s.(consumer := Idle)
    ensures Next(s.(consumer := Idle), Pop) == s.(consumer := Idle)
  {
  }

  /** From any good state with the consumer idle, a peek and a pop stepped alone end as the ring's receive:
      the oldest record handed over and the tail past it, or nothing handed over when there is none. */
  lemma ReceiveIsSchedule(s: State)
    requires Good(s) && s.consumer.Idle?
    ensures var (got, ring) := V.Receive(RingOf(s));
      After(s, Receiving())
      == s.(tail := ring.tail, received := s.received + if got.Some? then [got.value] else [])
  {
    hide After, ConsumerNext, LenAt, RecordAt, TailAfter, Inv, ProducerInv, ConsumerInv, RecordLen, RecordBytes;
    hide Receiving;
    var v :| StateInv(s, v);
    ReceivingSteps(s);
    EmptyIffCursorsMeet(s.data, s.head, s.tail, v);
    var s1 := s.(consumer := PeekTail(s.tail));
    assert Next(s, Peek) == s1;
    assert s.received + [] == s.received;
    if s.head == s.tail {
      NothingSeen(s1);
      WaitsWhenSeen(s);
    } else {
      V.TailInRange(RingOf(s), v);
      if v.AtMarker() {
        MarkerIsSkipped(s.data, s.head, s.tail, v);
        StepsOverMarker(s1);
        AfterMarker(s, Straight(v.back));
      } else {
        FrontIsOldest(s.data, s.head, s.tail, v);
        ReadsRecord(s1);
        var s2 := ConsumerNext(ConsumerNext(ConsumerNext(s1)));
        WaitsWhenSeen(s2);
        PopsSeen(s2);
      }
    }
  }

  /** The rest of a receive once the marker has been stepped over. */
  lemma AfterMarker(s: State, v: View)
    requires s.consumer.Idle? && s.head != s.tail && s.tail + ENVELOPE_LEN <= |s.data|
    requires LenAt(s.data, s.tail) == SENTINEL && Inv(s.data, s.head, 0, v) && !v.AtMarker()
    ensures var (got, ring) := V.Receive(RingOf(s));
      var s3 := s.(tail := 0, consumer := PeekTail(0));
      ConsumerNext(ConsumerNext(Next(ConsumerNext(ConsumerNext(ConsumerNext(s3))), Pop)))
      == s.(tail := ring.tail, received := s.received + if got.Some? then [got.value] else [])
  {
    hide ConsumerNext, LenAt, RecordAt, TailAfter, Inv, RecordLen, RecordBytes;
    var s3 := s.(tail := 0, consumer := PeekTail(0));
    assert s.received + [] == s.received;
    if s.head == 0 {
      NothingSeen(s3);
      WaitsWhenSeen(s3.(consumer := Idle));
    } else {
      V.TailInRange(RingOf(s3), v);
      FrontIsOldest(s.data, s.head, 0, v);
      ReadsRecord(s3);
      PopsSeen(ConsumerNext(ConsumerNext(ConsumerNext(s3))));
    }
  }

  /** What a call leaves. */
  lemma CallRuns(s: State, op: V.Op) returns (schedule: seq<Action>)
    requires Good(s) && s.producer.Resting? && s.consumer.Idle?
    ensures var s', (ring, accepted, handed) := After(s, schedule), V.Apply(RingOf(s), op);
      && RingOf(s') == ring && s'.sent == s.sent + accepted && s'.received == s.received + handed
      && s'.producer.Resting? && s'.consumer.Idle?
  {
    hide After, Good, V.Send, V.Receive, Receiving;
    V.ReceiveKeepsHead(RingOf(s));
    match op {
      case SendOp(r) =>
        var n := SendIsSchedule(s, r);
        schedule := [Send(r)] + Produces(n);
        SendKeepsTail(RingOf(s), r);
      case ReceiveOp =>
        schedule := Receiving();
        ReceiveIsSchedule(s);
    }
  }

  lemma SendKeepsTail(ring: V.Ring, r: Record)
    ensures V.Send(ring, r).Some? ==> V.Send(ring, r).value.tail == ring.tail
  {
    hide V.Placed, Reserve, RecordLen, RecordBytes;
  }

  lemma {:induction false} CallsRun(capacity: nat, before: seq<Action>, ops: seq<V.Op>) returns (more: seq<Action>)
    requires V.CapacityOk(capacity)
    requires Run(capacity, before).producer.Resting? && Run(capacity, before).consumer.Idle?
    ensures var s, s' := Run(capacity, before), Run(capacity, before + more);
      var (ring, accepted, handed) := V.Exec(RingOf(s), ops);
      && RingOf(s') == ring && s'.sent == s.sent + accepted && s'.received == s.received + handed
      && s'.producer.Resting? && s'.consumer.Idle?
    decreases |ops|
  {
    hide Run, After, Good, V.Apply;
    more := [];
    assert before + [] == before;
    if ops != [] {
      var s := Run(capacity, before);
      EveryRunIsGood(capacity, before);
      var first := CallRuns(s, ops[0]);
      RunJoins(capacity, before, first);
      var rest := CallsRun(capacity, before + first, ops[1..]);
      more := first + rest;
      assert before + first + rest == before + more;
      var (ring1, in1, out1) := V.Apply(RingOf(s), ops[0]);
      var (ring2, in2, out2) := V.Exec(ring1, ops[1..]);
      assert s.sent + in1 + in2 == s.sent + (in1 + in2) && s.received + out1 + out2 == s.received + (out1 + out2);
    }
  }

  /** So any history of whole sends and receives is a schedule, and at its end the shared ring, the records
      committed and the records consumed are those of the value ring after that history. */
  lemma CallsAreSchedules(capacity: nat, ops: seq<V.Op>) returns (schedule: seq<Action>)
    requires V.CapacityOk(capacity)
    ensures var s, (ring, accepted, handed) := Run(capacity, schedule), V.Exec(V.New(capacity), ops);
      RingOf(s) == ring && s.sent == accepted && s.received == handed && s.producer.Resting? && s.consumer.Idle?
  {
    hide V.Exec;
    schedule := CallsRun(capacity, [], ops);
    assert Run(capacity, []) == Init(capacity) && [] + schedule == schedule;
  }
}
