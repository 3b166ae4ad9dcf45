/**
 One producer and one consumer on a shared message ring, interleaved freely. Every load or
 store of a cursor and every byte the producer writes is a step of its own, so each side
 acts on a copy of the other's cursor that may be out of date.
 */
module RingConcurrency {
  import opened Bytes
  import opened RingLayout
  import RingValue

  datatype Write = Write(at: nat, value: Byte)

  /** Where the producer is inside a send of `record`. */
  datatype Producer =
    | Resting
    | HeadLoaded(record: Record, head: nat)
    | TailLoaded(record: Record, head: nat, tail: nat)
    | Writing(record: Record, plan: Plan, todo: seq<Write>)

  /** Where the consumer is inside a peek or a pop. */
  datatype Consumer =
    | Idle
    | PeekTail(tail: nat)
    | PeekHead(tail: nat, head: nat)
    | PeekLen(tail: nat, total: nat)
    | Peeked(record: Record, total: nat)
    | PopTail(record: Record, total: nat, tail: nat)
    | PopHead(record: Record, total: nat, tail: nat, head: nat)
    | Panicked

  /** The shared words, the two program counters, and the history of committed and popped
      records, which no step reads. */
  datatype State = State(
    data: seq<Byte>, head: nat, tail: nat,
    producer: Producer, consumer: Consumer,
    sent: seq<Record>, received: seq<Record>)

  datatype Action = Send(record: Record) | Produce | Peek | Pop | Consume

  function Init(capacity: nat): State {
    State(Zeros(capacity), 0, 0, Resting, Idle, [], [])
  }

  function Writes(at: nat, block: seq<Byte>): (w: seq<Write>)
    ensures |w| == |block|
  {
    seq(|block|, i requires 0 <= i < |block| => Write(at + i, block[i]))
  }

  /** The producer's writes in program order: the wrap marker if the end is skipped, the
      payload, the envelope, the zero padding. */
  function Program(head: nat, p: Plan, r: Record): seq<Write> {
    var body := BlockWrites(p.at, EnvelopeBytes(r.envelope, |r.payload|), r.payload, Padding(|r.payload|));
    if p.skip then Writes(head, SentinelBytes()) + body else body
  }

  function Padding(n: nat): (s: seq<Byte>)
    ensures ENVELOPE_LEN + n + |s| == RecordLen(n)
  {
    Zeros(RecordLen(n) - ENVELOPE_LEN - n)
  }

  function BlockWrites(at: nat, env: seq<Byte>, payload: seq<Byte>, pad: seq<Byte>): seq<Write> {
    Writes(at + ENVELOPE_LEN, payload) + (Writes(at, env) + Writes(at + ENVELOPE_LEN + |payload|, pad))
  }

  function ProducerNext(s: State): State {
    match s.producer
    case Resting => s
    case HeadLoaded(r, h) => s.(producer := TailLoaded(r, h, s.tail))
    case TailLoaded(r, h, t) =>
      (match Reserve(|s.data|, h, t, RecordLen(|r.payload|))
       case None => s.(producer := Resting)
       case Some(p) => s.(producer := Writing(r, p, Program(h, p, r))))
    case Writing(r, p, todo) =>
      if todo == [] then
        s.(head := p.next, producer := Resting, sent := s.sent + [r])
      else if todo[0].at < |s.data| then
        s.(data := s.data[todo[0].at := todo[0].value], producer := Writing(r, p, todo[1..]))
      else s
  }

  function ConsumerNext(s: State): State {
    match s.consumer
    case Idle => s
    case PeekTail(t) => s.(consumer := PeekHead(t, s.head))
    case PeekHead(t, h) =>
      if h == t then s.(consumer := Idle)
      else if t + 4 > |s.data| then s.(consumer := Panicked)
      else s.(consumer := PeekLen(t, LenAt(s.data, t)))
    case PeekLen(t, total) =>
      if total == SENTINEL then s.(tail := 0, consumer := PeekTail(0))
      else if total < ENVELOPE_LEN || t + total > |s.data| then s.(consumer := Panicked)
      else s.(consumer := Peeked(RecordAt(s.data, t, total), total))
    case Peeked(_, _) => s
    case PopTail(r, total, t) => s.(consumer := PopHead(r, total, t, s.head))
    case PopHead(r, total, t, h) =>
      if t == h then s.(consumer := Idle)
      else s.(tail := TailAfter(|s.data|, t, total), consumer := Idle, received := s.received + [r])
    case Panicked => s
  }

  /** An action that does not apply leaves the state alone. A record too long for the ring is
      refused before the ring is looked at. */
  function Next(s: State, a: Action): State {
    match a
    case Send(r) =>
      if s.producer.Resting? && RecordLen(|r.payload|) < |s.data|
      then s.(producer := HeadLoaded(r, s.head))
      else s
    case Produce => ProducerNext(s)
    case Peek => if s.consumer.Idle? || s.consumer.Peeked? then s.(consumer := PeekTail(s.tail)) else s
    case Pop =>
      if s.consumer.Peeked?
      then s.(consumer := PopTail(s.consumer.record, s.consumer.total, s.tail))
      else s
    case Consume => ConsumerNext(s)
  }

  /** The state after a schedule. */
  ghost function Run(capacity: nat, schedule: seq<Action>): State {
    if schedule == [] then Init(capacity)
    else Next(Run(capacity, schedule[..|schedule| - 1]), schedule[|schedule| - 1])
  }

  // ----- The invariant -----

  ghost function Apply(data: seq<Byte>, todo: seq<Write>): (d: seq<Byte>)
    ensures |d| == |data|
    decreases |todo|
  {
    if todo == [] then data
    else if todo[0].at < |data| then Apply(data[todo[0].at := todo[0].value], todo[1..])
    else Apply(data, todo[1..])
  }

  ghost predicate Free(capacity: nat, head: nat, tail: nat, todo: seq<Write>) {
    forall w :: w in todo ==> w.at < capacity && !Unread(head, tail, w.at)
  }

  /** The bytes a commit is about to publish. */
  ghost predicate Ready(data: seq<Byte>, head: nat, p: Plan, r: Record) {
    && p.at + RecordLen(|r.payload|) <= |data|
    && data[p.at..p.at + RecordLen(|r.payload|)] == RecordBytes(r)
    && (p.skip ==> head + 4 <= |data| && data[head..head + 4] == Le32(SENTINEL))
  }

  ghost predicate ProducerInv(s: State) {
    match s.producer
    case Resting => true
    case HeadLoaded(r, h) => h == s.head && RecordLen(|r.payload|) < |s.data|
    case TailLoaded(r, h, t) =>
      && h == s.head && RecordLen(|r.payload|) < |s.data|
      && CursorsOk(|s.data|, h, t) && Advanced(h, t, s.tail)
    case Writing(r, p, todo) =>
      && Places(|s.data|, s.head, s.tail, RecordLen(|r.payload|), p)
      && Free(|s.data|, s.head, s.tail, todo)
      && Ready(Apply(s.data, todo), s.head, p, r)
  }

  ghost predicate AtFront(v: View, r: Record, total: nat) {
    !v.AtMarker() && v.Queue() != [] && v.Queue()[0] == r && total == ENVELOPE_LEN + |r.payload|
  }

  ghost predicate ConsumerInv(s: State, v: View) {
    match s.consumer
    case Idle => true
    case PeekTail(t) => t == s.tail
    case PeekHead(t, h) => t == s.tail && (h != t ==> v.Queue() != [])
    case PeekLen(t, total) =>
      && t == s.tail && v.Queue() != []
      && total == if v.AtMarker() then SENTINEL else ENVELOPE_LEN + |v.Queue()[0].payload|
    case Peeked(r, total) => AtFront(v, r, total)
    case PopTail(r, total, t) => t == s.tail && AtFront(v, r, total)
    case PopHead(r, total, t, h) => t == s.tail && t != h && AtFront(v, r, total)
    case Panicked => false
  }

  ghost predicate StateInv(s: State, v: View) {
    && Inv(s.data, s.head, s.tail, v)
    && s.sent == s.received + v.Queue()
    && ProducerInv(s)
    && ConsumerInv(s, v)
  }

  ghost predicate Good(s: State) {
    exists v :: StateInv(s, v)
  }

  // ----- The producer's program writes a whole record -----

  lemma {:induction false} ApplyBlock(data: seq<Byte>, at: nat, block: seq<Byte>, rest: seq<Write>)
    requires at + |block| <= |data|
    ensures Apply(data, Writes(at, block) + rest) == Apply(Overwrite(data, at, block), rest)
    decreases |block|
  {
    var todo := Writes(at, block) + rest;
    if block == [] {
      assert todo == rest;
      assert Overwrite(data, at, block) == data;
    } else {
      var data' := data[at := block[0]];
      assert todo[1..] == Writes(at + 1, block[1..]) + rest;
      ApplyBlock(data', at + 1, block[1..], rest);
      OverwriteFirst(data, at, block);
    }
  }

  lemma OverwriteFirst(data: seq<Byte>, at: nat, block: seq<Byte>)
    requires at + |block| <= |data| && block != []
    ensures Overwrite(data[at := block[0]], at + 1, block[1..]) == Overwrite(data, at, block)
  {
    var l, r := Overwrite(data[at := block[0]], at + 1, block[1..]), Overwrite(data, at, block);
    assert l == r;
  }

  /** Payload, then envelope, then padding: a block's three pieces in the producer's order. */
  function ThreePieces(data: seq<Byte>, at: nat, env: seq<Byte>, payload: seq<Byte>, pad: seq<Byte>): (d: seq<Byte>)
    requires |env| == ENVELOPE_LEN && at + ENVELOPE_LEN + |payload| + |pad| <= |data|
    ensures |d| == |data|
  {
    Overwrite(Overwrite(Overwrite(data, at + ENVELOPE_LEN, payload), at, env),
              at + ENVELOPE_LEN + |payload|, pad)
  }

  lemma ThreePiecesJoin(data: seq<Byte>, at: nat, env: seq<Byte>, payload: seq<Byte>, pad: seq<Byte>)
    requires |env| == ENVELOPE_LEN && at + ENVELOPE_LEN + |payload| + |pad| <= |data|
    ensures var d, len := ThreePieces(data, at, env, payload, pad), ENVELOPE_LEN + |payload| + |pad|;
      && d[at..at + len] == env + payload + pad
      && forall i :: 0 <= i < at || at + len <= i < |data| ==> d[i] == data[i]
  {
    hide Overwrite;
    var n, len := |payload|, ENVELOPE_LEN + |payload| + |pad|;
    var d1 := Overwrite(data, at + ENVELOPE_LEN, payload);
    OverwriteAt(data, at + ENVELOPE_LEN, payload);
    var d2 := Overwrite(d1, at, env);
    OverwriteAt(d1, at, env);
    var d := ThreePieces(data, at, env, payload, pad);
    OverwriteAt(d2, at + ENVELOPE_LEN + n, pad);
    forall i | 0 <= i < len
      ensures d[at + i] == (env + payload + pad)[i]
    {
      if i < ENVELOPE_LEN {
        assert d2[at..at + ENVELOPE_LEN][i] == env[i];
        assert d[at + i] == d2[at + i];
      } else if i < ENVELOPE_LEN + n {
        assert d1[at + ENVELOPE_LEN..at + ENVELOPE_LEN + n][i - ENVELOPE_LEN] == payload[i - ENVELOPE_LEN];
        assert d[at + i] == d2[at + i] == d1[at + i];
      } else {
        assert d[at + ENVELOPE_LEN + n..at + len][i - ENVELOPE_LEN - n] == pad[i - ENVELOPE_LEN - n];
      }
    }
    SliceIs(d, at, env + payload + pad);
  }

  lemma ProgramReady(data: seq<Byte>, head: nat, tail: nat, p: Plan, r: Record)
    requires CursorsOk(|data|, head, tail)
    requires Places(|data|, head, tail, RecordLen(|r.payload|), p)
    ensures Ready(Apply(data, Program(head, p, r)), head, p, r)
  {
    hide Unread, Le32, Writes, EnvelopeBytes, Overwrite, RecordLen, SentinelBytes, Apply, ThreePieces, BlockWrites;
    hide Padding, RecordBytes;
    var n := |r.payload|;
    var env, pad := EnvelopeBytes(r.envelope, n), Padding(n);
    var marked := if p.skip then Overwrite(data, head, SentinelBytes()) else data;
    if p.skip {
      ApplyBlock(data, head, SentinelBytes(), BlockWrites(p.at, env, r.payload, pad));
    }
    ApplyBlockWrites(marked, p.at, env, r.payload, pad);
    ThreePiecesJoin(marked, p.at, env, r.payload, pad);
    RecordInPieces(r);
    if p.skip {
      OverwriteAt(data, head, SentinelBytes());
      MarkerWord(ThreePieces(marked, p.at, env, r.payload, pad), marked, head);
    }
  }

  lemma RecordInPieces(r: Record)
    ensures RecordBytes(r) == EnvelopeBytes(r.envelope, |r.payload|) + r.payload + Padding(|r.payload|)
  {
    hide EnvelopeBytes, RecordLen;
  }

  lemma ApplyBlockWrites(data: seq<Byte>, at: nat, env: seq<Byte>, payload: seq<Byte>, pad: seq<Byte>)
    requires |env| == ENVELOPE_LEN && at + ENVELOPE_LEN + |payload| + |pad| <= |data|
    ensures Apply(data, BlockWrites(at, env, payload, pad)) == ThreePieces(data, at, env, payload, pad)
  {
    hide Writes, Overwrite, Apply, BlockWrites, ThreePieces;
    var b1, b3 := at + ENVELOPE_LEN, at + ENVELOPE_LEN + |payload|;
    BlockOffsets(data, at, env, payload, pad, b1, b3);
    ApplyThree(data, b1, payload, at, env, b3, pad);
  }

  lemma BlockOffsets(data: seq<Byte>, at: nat, env: seq<Byte>, payload: seq<Byte>, pad: seq<Byte>, b1: nat, b3: nat)
    requires |env| == ENVELOPE_LEN && at + ENVELOPE_LEN + |payload| + |pad| <= |data|
    requires b1 == at + ENVELOPE_LEN && b3 == at + ENVELOPE_LEN + |payload|
    ensures BlockWrites(at, env, payload, pad) == Writes(b1, payload) + (Writes(at, env) + Writes(b3, pad))
    ensures ThreePieces(data, at, env, payload, pad)
            == Overwrite(Overwrite(Overwrite(data, b1, payload), at, env), b3, pad)
  {
    hide Writes, Overwrite, Apply;
  }

  lemma ApplyThree(data: seq<Byte>, b1: nat, s1: seq<Byte>, b2: nat, s2: seq<Byte>, b3: nat, s3: seq<Byte>)
    requires b1 + |s1| <= |data| && b2 + |s2| <= |data| && b3 + |s3| <= |data|
    ensures Apply(data, Writes(b1, s1) + (Writes(b2, s2) + Writes(b3, s3)))
            == Overwrite(Overwrite(Overwrite(data, b1, s1), b2, s2), b3, s3)
  {
    hide Writes, Overwrite, Apply;
    var d1 := Overwrite(data, b1, s1);
    ApplyBlock(data, b1, s1, Writes(b2, s2) + Writes(b3, s3));
    ApplyBlock(d1, b2, s2, Writes(b3, s3));
    ApplyLastBlock(Overwrite(d1, b2, s2), b3, s3);
  }

  lemma ApplyLastBlock(data: seq<Byte>, at: nat, block: seq<Byte>)
    requires at + |block| <= |data|
    ensures Apply(data, Writes(at, block)) == Overwrite(data, at, block)
  {
    hide Writes, Overwrite, Apply;
    assert Writes(at, block) + [] == Writes(at, block);
    ApplyBlock(data, at, block, []);
    ApplyDone(Overwrite(data, at, block));
  }

  lemma ApplyDone(data: seq<Byte>)
    ensures Apply(data, []) == data
  {
  }

  lemma ProgramFree(capacity: nat, head: nat, tail: nat, p: Plan, r: Record)
    requires CursorsOk(capacity, head, tail)
    requires Places(capacity, head, tail, RecordLen(|r.payload|), p)
    ensures Free(capacity, head, tail, Program(head, p, r))
  {
    hide Writes, EnvelopeBytes, Padding, RecordLen, SentinelBytes, Unread;
    var n := |r.payload|;
    BlockFree(capacity, head, tail, p.at + ENVELOPE_LEN, r.payload);
    BlockFree(capacity, head, tail, p.at, EnvelopeBytes(r.envelope, n));
    BlockFree(capacity, head, tail, p.at + ENVELOPE_LEN + n, Padding(n));
    if p.skip {
      MarkerFree(capacity, head, tail, p, RecordLen(n));
      BlockFree(capacity, head, tail, head, SentinelBytes());
    }
  }

  lemma MarkerFree(capacity: nat, head: nat, tail: nat, p: Plan, len: nat)
    requires Places(capacity, head, tail, len, p) && p.skip
    ensures forall i :: head <= i < head + ENVELOPE_LEN ==> !Unread(head, tail, i)
  {
  }

  lemma BlockFree(capacity: nat, head: nat, tail: nat, at: nat, block: seq<Byte>)
    requires at + |block| <= capacity
    requires forall i :: at <= i < at + |block| ==> !Unread(head, tail, i)
    ensures Free(capacity, head, tail, Writes(at, block))
  {
    hide Unread;
  }

  // ----- Every step keeps the invariant -----

  lemma UnreadShrinks(capacity: nat, head: nat, tail: nat, tail': nat, i: nat)
    requires CursorsOk(capacity, head, tail) && Advanced(head, tail, tail') && i < capacity
    ensures Unread(head, tail', i) ==> Unread(head, tail, i)
  {
  }

  /** The consumer moving its tail forward never spoils what the producer is doing. */
  lemma TailMoveKeepsProducer(s: State, tail': nat)
    requires CursorsOk(|s.data|, s.head, s.tail) && CursorsOk(|s.data|, s.head, tail')
    requires ProducerInv(s) && Advanced(s.head, s.tail, tail')
    ensures ProducerInv(s.(tail := tail'))
  {
    hide Ready, Apply, Places, CursorsOk, Unread, RecordLen;
    match s.producer
    case Resting =>
    case HeadLoaded(r, h) =>
    case TailLoaded(r, h, t) =>
    case Writing(r, p, todo) =>
      PlacesStable(|s.data|, s.head, s.tail, tail', RecordLen(|r.payload|), p);
      forall w | w in todo
        ensures w.at < |s.data| && !Unread(s.head, tail', w.at)
      {
        UnreadShrinks(|s.data|, s.head, s.tail, tail', w.at);
      }
  }

  lemma ProducerStartKeepsInv(s: State, v: View)
    requires StateInv(s, v) && (s.producer.HeadLoaded? || s.producer.TailLoaded?)
    ensures StateInv(ProducerNext(s), v)
  {
    hide RecordLen, Apply, Ready, Places, Unread, Program, Reserve;
    match s.producer
    case HeadLoaded(r, h) =>
    case TailLoaded(r, h, t) =>
      var len := RecordLen(|r.payload|);
      match Reserve(|s.data|, h, t, len)
      case None =>
      case Some(p) =>
        ReserveIsExact(|s.data|, h, t, len, p);
        PlacesStable(|s.data|, h, t, s.tail, len, p);
        ProgramReady(s.data, h, s.tail, p, r);
        ProgramFree(|s.data|, h, s.tail, p, r);
  }

  lemma WriteKeepsInv(s: State, v: View)
    requires StateInv(s, v) && s.producer.Writing? && s.producer.todo != []
    ensures StateInv(ProducerNext(s), v)
    ensures forall i :: 0 <= i < |s.data| && Unread(s.head, s.tail, i) ==> ProducerNext(s).data[i] == s.data[i]
  {
    hide RecordLen, Ready, Places, Unread, Inv;
    var w := s.producer.todo[0];
    assert w in s.producer.todo;
    FreeWritesKeepQueue(s.data, s.data[w.at := w.value], s.head, s.tail, v);
  }

  lemma PublishKeepsInv(s: State, v: View)
    requires StateInv(s, v) && s.producer.Writing? && s.producer.todo == []
    ensures StateInv(ProducerNext(s), Appended(v, s.head, s.producer.plan, s.producer.record, |s.data|))
  {
    hide RecordLen, Unread, Inv, Places;
    var p, r := s.producer.plan, s.producer.record;
    ApplyDone(s.data);
    CommitAppends(s.data, s.head, s.tail, v, p, r);
    var v' := Appended(v, s.head, p, r, |s.data|);
    assert s.received + v.Queue() + [r] == s.received + (v.Queue() + [r]);
    QueueStaysInFront(v, s.head, p, r, |s.data|);
    QueueIsShort(s.data, s.head, s.tail, v);
  }

  lemma QueueStaysInFront(v: View, head: nat, p: Plan, r: Record, capacity: nat)
    ensures var v' := Appended(v, head, p, r, capacity);
      && (v.Queue() != [] && v'.Queue() == v.Queue() + [r] ==> v'.Queue()[0] == v.Queue()[0])
      && (v.Queue() != [] ==> v'.AtMarker() == v.AtMarker())
  {
  }

  lemma QueueIsShort(data: seq<Byte>, head: nat, tail: nat, v: View)
    requires Inv(data, head, tail, v)
    ensures 8 * |v.Queue()| <= |data| < SENTINEL
  {
    QueueFits(data, head, tail, v);
  }

  lemma PeekKeepsInv(s: State, v: View)
    requires StateInv(s, v) && (s.consumer.PeekTail? || s.consumer.PeekHead? || s.consumer.PopTail?)
    ensures StateInv(ConsumerNext(s), v)
  {
    hide Inv, ProducerInv, LenAt;
    EmptyIffCursorsMeet(s.data, s.head, s.tail, v);
    TailFrame(s, ConsumerNext(s));
    if s.consumer.PeekHead? && s.consumer.head != s.consumer.tail {
      CursorsInRange(s.data, s.head, s.tail, v);
      if v.AtMarker() {
        MarkerIsSkipped(s.data, s.head, s.tail, v);
      } else {
        FrontIsOldest(s.data, s.head, s.tail, v);
      }
    }
  }

  lemma CursorsInRange(data: seq<Byte>, head: nat, tail: nat, v: View)
    requires Inv(data, head, tail, v)
    ensures CursorsOk(|data|, head, tail) && tail + ENVELOPE_LEN <= |data|
  {
  }

  lemma LenKeepsInv(s: State, v: View)
    requires StateInv(s, v) && s.consumer.PeekLen?
    ensures Good(ConsumerNext(s))
  {
    hide Inv, StateInv, ConsumerNext;
    if v.AtMarker() { MarkerKeepsInv(s, v); } else { RecordReadKeepsInv(s, v); }
  }

  lemma MarkerKeepsInv(s: State, v: View)
    requires StateInv(s, v) && s.consumer.PeekLen? && v.AtMarker()
    ensures StateInv(ConsumerNext(s), Straight(v.back))
  {
    hide Inv, ProducerInv, LenAt, RecordAt, CursorsOk;
    MarkerIsSkipped(s.data, s.head, s.tail, v);
    CursorsInRange(s.data, s.head, s.tail, v);
    CursorsInRange(s.data, s.head, 0, Straight(v.back));
    TailMoveKeepsProducer(s, 0);
    TailFrame(s.(tail := 0), ConsumerNext(s));
  }

  lemma RecordReadKeepsInv(s: State, v: View)
    requires StateInv(s, v) && s.consumer.PeekLen? && !v.AtMarker()
    ensures StateInv(ConsumerNext(s), v)
  {
    hide Inv, ProducerInv, LenAt, RecordAt, RecordLen, RecordBytes, CursorsOk;
    EmptyIffCursorsMeet(s.data, s.head, s.tail, v);
    FrontIsOldest(s.data, s.head, s.tail, v);
    TailFrame(s, ConsumerNext(s));
  }

  /** The producer's part of the invariant reads only the shared words and its own counter. */
  lemma TailFrame(s: State, s': State)
    requires s'.data == s.data && s'.head == s.head && s'.tail == s.tail && s'.producer == s.producer
    ensures ProducerInv(s') == ProducerInv(s)
  {
  }

  lemma PopKeepsInv(s: State, v: View)
    requires StateInv(s, v) && s.consumer.PopHead?
    ensures v.Queue() != [] && !v.AtMarker()
    ensures StateInv(ConsumerNext(s), Popped(v, ConsumerNext(s).tail))
  {
    hide Inv, ProducerInv, Popped, TailAfter, CursorsOk;
    EmptyIffCursorsMeet(s.data, s.head, s.tail, v);
    PopRemovesOldest(s.data, s.head, s.tail, v);
    CursorsInRange(s.data, s.head, s.tail, v);
    var s' := ConsumerNext(s);
    CursorsInRange(s.data, s.head, s'.tail, Popped(v, s'.tail));
    TailMoveKeepsProducer(s, s'.tail);
    TailFrame(s.(tail := s'.tail), s');
    HeadMoves(s.received, v.Queue());
  }

  lemma HeadMoves<T>(a: seq<T>, b: seq<T>)
    requires b != []
    ensures a + b == a + [b[0]] + b[1..]
  {
  }

  lemma ConsumerKeepsGood(s: State)
    requires Good(s)
    ensures Good(ConsumerNext(s))
  {
    hide StateInv, ConsumerNext;
    var v :| StateInv(s, v);
    ConsumerAlive(s, v);
    match s.consumer
    case Idle => assert StateInv(ConsumerNext(s), v);
    case Peeked(_, _) => assert StateInv(ConsumerNext(s), v);
    case PeekLen(_, _) => LenKeepsInv(s, v);
    case PopHead(_, _, _, _) => PopKeepsInv(s, v);
    case _ => PeekKeepsInv(s, v);
  }

  lemma ConsumerAlive(s: State, v: View)
    requires StateInv(s, v)
    ensures !s.consumer.Panicked?
    ensures s.consumer.Idle? || s.consumer.Peeked? ==> ConsumerNext(s) == s
  {
    hide Inv, ProducerInv;
  }

  lemma ProducerKeepsGood(s: State)
    requires Good(s)
    ensures Good(ProducerNext(s))
    ensures |ProducerNext(s).data| == |s.data|
    ensures forall i :: 0 <= i < |s.data| && Unread(s.head, s.tail, i) ==> ProducerNext(s).data[i] == s.data[i]
  {
    hide StateInv, Unread;
    var v :| StateInv(s, v);
    match s.producer
    case Resting => assert StateInv(ProducerNext(s), v);
    case Writing(_, _, todo) =>
      if todo == [] { PublishKeepsInv(s, v); } else { WriteKeepsInv(s, v); }
    case _ => ProducerStartKeepsInv(s, v);
  }

  lemma BeginKeepsGood(s: State, a: Action)
    requires Good(s) && (a.Send? || a.Peek? || a.Pop?)
    ensures Good(Next(s, a))
  {
    hide Inv, RecordLen;
    var v :| StateInv(s, v);
    assert StateInv(Next(s, a), v);
  }

  lemma NextKeepsGood(s: State, a: Action)
    requires Good(s)
    ensures Good(Next(s, a))
  {
    hide Good, ProducerNext, ConsumerNext;
    match a
    case Produce => ProducerKeepsGood(s);
    case Consume => ConsumerKeepsGood(s);
    case _ => BeginKeepsGood(s, a);
  }

  // ----- What every schedule guarantees -----

  lemma {:induction false} EveryRunIsGood(capacity: nat, schedule: seq<Action>)
    requires capacity % 8 == 0 && MIN_CAPACITY <= capacity < SENTINEL
    ensures Good(Run(capacity, schedule)) && |Run(capacity, schedule).data| == capacity
  {
    hide Good, Next;
    if schedule == [] {
      InitIsGood(capacity);
    } else {
      EveryRunIsGood(capacity, schedule[..|schedule| - 1]);
      NextKeepsGood(Run(capacity, schedule[..|schedule| - 1]), schedule[|schedule| - 1]);
      NextKeepsSize(Run(capacity, schedule[..|schedule| - 1]), schedule[|schedule| - 1]);
    }
  }

  lemma InitIsGood(capacity: nat)
    requires capacity % 8 == 0 && MIN_CAPACITY <= capacity < SENTINEL
    ensures Good(Init(capacity))
  {
    EncodeEmpty();
    assert StateInv(Init(capacity), Straight([]));
  }

  lemma NextKeepsSize(s: State, a: Action)
    ensures |Next(s, a).data| == |s.data|
  {
    hide Reserve, RecordAt, LenAt;
  }

  /** Delivery in order, nothing lost and nothing made up: at every moment of every schedule
      the committed records are the popped ones followed by what the bytes between the cursors
      still spell out. No check of the consumer ever fails. */
  lemma FifoUnderEverySchedule(capacity: nat, schedule: seq<Action>)
    requires capacity % 8 == 0 && MIN_CAPACITY <= capacity < SENTINEL
    ensures var s := Run(capacity, schedule);
      && s.sent == s.received + RingValue.Drain(RingValue.Ring(s.data, s.head, s.tail), capacity)
      && s.received <= s.sent
      && !s.consumer.Panicked?
  {
    hide Inv, ProducerInv, ConsumerInv, Next, Run, RingValue.Drain;
    EveryRunIsGood(capacity, schedule);
    var s := Run(capacity, schedule);
    var v :| StateInv(s, v);
    ConsumerAlive(s, v);
    QueueIsShort(s.data, s.head, s.tail, v);
    RingValue.DrainIsQueue(RingValue.Ring(s.data, s.head, s.tail), v, capacity);
  }

  /** No step of either side changes a byte the consumer has still to read. */
  lemma UnreadBytesNeverChange(capacity: nat, schedule: seq<Action>, a: Action)
    requires capacity % 8 == 0 && MIN_CAPACITY <= capacity < SENTINEL
    ensures var s := Run(capacity, schedule);
      var s' := Next(s, a);
      && |s'.data| == |s.data|
      && forall i :: 0 <= i < |s.data| && Unread(s.head, s.tail, i) ==> s'.data[i] == s.data[i]
  {
    hide Good, Unread, ProducerNext;
    EveryRunIsGood(capacity, schedule);
    var s := Run(capacity, schedule);
    NextKeepsSize(s, a);
    if a == Produce {
      ProducerKeepsGood(s);
    }
  }

  /** Between a peek and its pop the record stays where it is, byte for byte, and it is the
      next one owed to the consumer. */
  lemma PeekedRecordStays(capacity: nat, schedule: seq<Action>)
    requires capacity % 8 == 0 && MIN_CAPACITY <= capacity < SENTINEL
    ensures var s := Run(capacity, schedule);
      s.consumer.Peeked? || s.consumer.PopTail? || s.consumer.PopHead? ==>
        var r := s.consumer.record;
        && s.received + [r] <= s.sent
        && s.tail % 8 == 0
        && s.tail + RecordLen(|r.payload|) <= |s.data|
        && s.data[s.tail..s.tail + RecordLen(|r.payload|)] == RecordBytes(r)
  {
    hide Inv, ProducerInv, Next, RecordLen, RecordBytes, LenAt, RecordAt, Run;
    EveryRunIsGood(capacity, schedule);
    var s := Run(capacity, schedule);
    var v :| StateInv(s, v);
    if s.consumer.Peeked? || s.consumer.PopTail? || s.consumer.PopHead? {
      EmptyIffCursorsMeet(s.data, s.head, s.tail, v);
      FrontIsOldest(s.data, s.head, s.tail, v);
      CursorsInRange(s.data, s.head, s.tail, v);
      HeadMoves(s.received, v.Queue());
    }
  }
}
