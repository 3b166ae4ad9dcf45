/**
 The message ring as a value, and as the class that updates a byte array in place. One
 operation of the value is a whole send (reserve, write, commit) or a whole receive (peek,
 pop); the class has the separate calls.
 */
module RingValue {
  import opened Bytes
  import opened RingLayout

  // ----- The ring as a value -----

  datatype Ring = Ring(data: seq<Byte>, head: nat, tail: nat)

  ghost predicate Holds(r: Ring, v: View) {
    Inv(r.data, r.head, r.tail, v)
  }

  predicate CapacityOk(capacity: nat) {
    capacity % 8 == 0 && MIN_CAPACITY <= capacity < SENTINEL
  }

  function New(capacity: nat): Ring {
    Ring(Zeros(capacity), 0, 0)
  }

  /** Reserve, write the whole payload, commit its full length. */
  function Send(r: Ring, rec: Record): Option<Ring> {
    var len := RecordLen(|rec.payload|);
    if len >= |r.data| then None
    else match Reserve(|r.data|, r.head, r.tail, len)
      case None => None
      case Some(p) => Some(Ring(Placed(r.data, r.head, p, RecordBytes(rec)), p.next, r.tail))
  }

  /** The region after the marker, if one is due, and the block have been written. */
  function Placed(data: seq<Byte>, head: nat, p: Plan, block: seq<Byte>): (d: seq<Byte>)
    ensures |d| == |data|
  {
    var marked :=
      if p.skip && head + ENVELOPE_LEN <= |data| then Overwrite(data, head, SentinelBytes()) else data;
    if p.at + |block| <= |data| then Overwrite(marked, p.at, block) else marked
  }

  /** Peek, then pop what was seen. None when the ring is empty or its bytes make no sense. */
  function Receive(r: Ring): (Option<Record>, Ring) {
    if r.head == r.tail || r.tail + ENVELOPE_LEN > |r.data| then (None, r)
    else
      var at := if LenAt(r.data, r.tail) == SENTINEL then 0 else r.tail;
      if r.head == at || at + ENVELOPE_LEN > |r.data|
         || !(ENVELOPE_LEN <= LenAt(r.data, at) <= |r.data| - at) then (None, r.(tail := at))
      else
        var total := LenAt(r.data, at);
        (Some(RecordAt(r.data, at, total)), r.(tail := TailAfter(|r.data|, at, total)))
  }

  lemma NewIsEmpty(capacity: nat)
    requires CapacityOk(capacity)
    ensures Holds(New(capacity), Straight([]))
  {
    EncodeEmpty();
  }

  /** The bytes of a placed block, with the marker, and nothing unread touched. */
  lemma PlacedBlock(data: seq<Byte>, head: nat, tail: nat, p: Plan, block: seq<Byte>)
    requires CursorsOk(|data|, head, tail) && Places(|data|, head, tail, |block|, p)
    ensures var d := Placed(data, head, p, block);
      && d[p.at..p.at + |block|] == block
      && (p.skip ==> d[head..head + 4] == Le32(SENTINEL))
      && forall i :: 0 <= i < |data| && Unread(head, tail, i) ==> d[i] == data[i]
  {
    hide Le32, SentinelBytes, Overwrite;
    var marked := if p.skip then Overwrite(data, head, SentinelBytes()) else data;
    OverwriteAt(marked, p.at, block);
    var d := Placed(data, head, p, block);
    if p.skip {
      OverwriteAt(data, head, SentinelBytes());
      MarkerWord(d, marked, head);
    }
  }

  /** A send appends its record or is refused, and it is refused exactly when there is no
      placement for the record. */
  lemma SendAppends(r: Ring, v: View, rec: Record) returns (v': View)
    requires Holds(r, v)
    ensures Send(r, rec).Some? ==> Holds(Send(r, rec).value, v') && v'.Queue() == v.Queue() + [rec]
    ensures Send(r, rec).None? ==> v' == v
    ensures v'.Wrapped? ==> (v.Wrapped? && v'.end == v.end) || v'.end + RecordLen(|rec.payload|) > |r.data|
    ensures Send(r, rec).Some? <==>
      (RecordLen(|rec.payload|) < |r.data|
       && exists p :: Places(|r.data|, r.head, r.tail, RecordLen(|rec.payload|), p))
  {
    hide RecordBytes, RecordLen, Placed, Reserve, Le32, Unread;
    v' := v;
    var len := RecordLen(|rec.payload|);
    if len < |r.data| {
      forall p { ReserveIsExact(|r.data|, r.head, r.tail, len, p); }
      var plan := Reserve(|r.data|, r.head, r.tail, len);
      if plan.Some? {
        v' := PlaceAppends(r, v, plan.value, rec);
      }
    }
  }

  lemma PlaceAppends(r: Ring, v: View, p: Plan, rec: Record) returns (v': View)
    requires Holds(r, v) && Places(|r.data|, r.head, r.tail, RecordLen(|rec.payload|), p)
    ensures Holds(Ring(Placed(r.data, r.head, p, RecordBytes(rec)), p.next, r.tail), v')
    ensures v'.Queue() == v.Queue() + [rec]
    ensures v'.Wrapped? ==> (v.Wrapped? && v'.end == v.end) || v'.end + RecordLen(|rec.payload|) > |r.data|
  {
    hide RecordBytes, RecordLen, Placed, Le32, Unread;
    var d := Placed(r.data, r.head, p, RecordBytes(rec));
    PlacedBlock(r.data, r.head, r.tail, p, RecordBytes(rec));
    FreeWritesKeepQueue(r.data, d, r.head, r.tail, v);
    CommitAppends(d, r.head, r.tail, v, p, rec);
    v' := Appended(v, r.head, p, rec, |d|);
  }

  /** A receive hands over the oldest record, and nothing only when there is none. */
  lemma ReceivePops(r: Ring, v: View) returns (v': View)
    requires Holds(r, v)
    ensures Holds(Receive(r).1, v')
    ensures Receive(r).0 == if v.Queue() == [] then None else Some(v.Queue()[0])
    ensures v'.Queue() == if v.Queue() == [] then [] else v.Queue()[1..]
    ensures v'.Wrapped? ==> v.Wrapped? && v'.end == v.end
    ensures v.Queue() == [] ==> Receive(r).1 == r
  {
    hide LenAt, RecordAt, Inv, RecordLen, RecordBytes, Le32;
    EmptyIffCursorsMeet(r.data, r.head, r.tail, v);
    v' := v;
    if r.head != r.tail {
      TailInRange(r, v);
      var w, t := v, r.tail;
      if v.AtMarker() {
        MarkerIsSkipped(r.data, r.head, r.tail, v);
        w, t := Straight(v.back), 0;
        EmptyIffCursorsMeet(r.data, r.head, 0, w);
        TailInRange(r.(tail := 0), w);
      }
      FrontIsOldest(r.data, r.head, t, w);
      PopRemovesOldest(r.data, r.head, t, w);
      v' := Popped(w, TailAfter(|r.data|, t, LenAt(r.data, t)));
    }
  }

  lemma TailInRange(r: Ring, v: View)
    requires Holds(r, v)
    ensures r.tail + ENVELOPE_LEN <= |r.data|
  {
    hide Encode, Le32, CursorsOk;
    assert CursorsOk(|r.data|, r.head, r.tail);
    WordAhead(|r.data|, r.head, r.tail);
  }

  lemma WordAhead(capacity: nat, head: nat, tail: nat)
    requires CursorsOk(capacity, head, tail)
    ensures tail + ENVELOPE_LEN <= capacity
  {
  }

  // ----- Runs -----

  /** What a consumer left alone would still be handed, at most `fuel` records. */
  ghost function Drain(r: Ring, fuel: nat): seq<Record>
    decreases fuel
  {
    if fuel == 0 || Receive(r).0.None? then []
    else [Receive(r).0.value] + Drain(Receive(r).1, fuel - 1)
  }

  lemma {:induction false} DrainIsQueue(r: Ring, v: View, fuel: nat)
    requires Holds(r, v) && |v.Queue()| <= fuel
    ensures Drain(r, fuel) == v.Queue()
    decreases fuel
  {
    hide Holds, Receive;
    if fuel > 0 {
      var v' := ReceivePops(r, v);
      if v.Queue() != [] {
        DrainIsQueue(Receive(r).1, v', fuel - 1);
      }
    }
  }

  datatype Op = SendOp(record: Record) | ReceiveOp

  /** The ring after an operation, and the records accepted and handed over by it. */
  function Apply(r: Ring, op: Op): (Ring, seq<Record>, seq<Record>) {
    match op
    case SendOp(rec) =>
      (match Send(r, rec)
       case None => (r, [], [])
       case Some(r') => (r', [rec], []))
    case ReceiveOp =>
      var (got, r') := Receive(r);
      (r', [], if got.Some? then [got.value] else [])
  }

  ghost function Exec(r: Ring, ops: seq<Op>): (Ring, seq<Record>, seq<Record>)
    decreases |ops|
  {
    if ops == [] then (r, [], [])
    else
      var (r1, in1, out1) := Apply(r, ops[0]);
      var (r2, in2, out2) := Exec(r1, ops[1..]);
      (r2, in1 + in2, out1 + out2)
  }

  lemma ApplyRefines(r: Ring, v: View, op: Op) returns (v': View)
    requires Holds(r, v)
    ensures var (r', accepted, handed) := Apply(r, op);
      && Holds(r', v') && |r'.data| == |r.data|
      && v.Queue() + accepted == handed + v'.Queue()
  {
    hide Holds, Send, Receive;
    match op
    case SendOp(rec) =>
      v' := SendAppends(r, v, rec);
      SizesKept(r, rec);
    case ReceiveOp =>
      v' := ReceivePops(r, v);
      SizesKept(r, Record(Envelope(0, 0, 0), []));
  }

  lemma SizesKept(r: Ring, rec: Record)
    ensures |Receive(r).1.data| == |r.data|
    ensures Send(r, rec).Some? ==> |Send(r, rec).value.data| == |r.data|
  {
    hide Placed, RecordAt, LenAt, Reserve;
  }

  lemma {:induction false} ExecRefines(r: Ring, v: View, ops: seq<Op>) returns (v': View)
    requires Holds(r, v)
    ensures var (r', accepted, handed) := Exec(r, ops);
      && Holds(r', v') && |r'.data| == |r.data|
      && v.Queue() + accepted == handed + v'.Queue()
    decreases |ops|
  {
    hide Holds, Apply;
    v' := v;
    if ops != [] {
      var (r1, in1, out1) := Apply(r, ops[0]);
      var v1 := ApplyRefines(r, v, ops[0]);
      v' := ExecRefines(r1, v1, ops[1..]);
      var (r2, in2, out2) := Exec(r1, ops[1..]);
      Reassociate(v.Queue(), in1, in2, out1, out2, v1.Queue(), v'.Queue());
    }
  }

  lemma Reassociate<T>(q: seq<T>, in1: seq<T>, in2: seq<T>, out1: seq<T>, out2: seq<T>, q1: seq<T>, q2: seq<T>)
    requires q + in1 == out1 + q1 && q1 + in2 == out2 + q2
    ensures q + (in1 + in2) == (out1 + out2) + q2
  {
    assert q + (in1 + in2) == (q + in1) + in2;
    assert (out1 + q1) + in2 == out1 + (q1 + in2);
    assert out1 + (out2 + q2) == (out1 + out2) + q2;
  }

  /** First in, first out, over every sequence of sends and receives from a new ring: what was
      accepted is what was handed over followed by what is still in the bytes. */
  lemma FifoOverEveryRun(capacity: nat, ops: seq<Op>)
    requires CapacityOk(capacity)
    ensures var (r, accepted, handed) := Exec(New(capacity), ops);
      accepted == handed + Drain(r, capacity)
  {
    hide Holds, Exec, Drain;
    NewIsEmpty(capacity);
    var v := ExecRefines(New(capacity), Straight([]), ops);
    var (r, accepted, handed) := Exec(New(capacity), ops);
    QueueBound(r, v);
    DrainIsQueue(r, v, capacity);
    assert [] + accepted == accepted;
  }

  lemma QueueBound(r: Ring, v: View)
    requires Holds(r, v)
    ensures |v.Queue()| <= |r.data|
  {
    QueueFits(r.data, r.head, r.tail, v);
  }

  // ----- How long a record a drained ring will take -----

  /** A drained ring at cursor position `at` takes a record of `len` bytes exactly when the
      record fits behind the position or strictly in front of it. */
  lemma DrainedRoom(r: Ring, v: View, rec: Record)
    requires Holds(r, v) && r.head == r.tail && RecordLen(|rec.payload|) < |r.data|
    ensures Send(r, rec).Some? <==>
      (r.head + RecordLen(|rec.payload|) <= |r.data| || RecordLen(|rec.payload|) < r.head)
  {
    hide Placed, RecordBytes, RecordLen;
  }

  /** Send one record of this length to a new ring and take it out again. */
  function OneShot(rec: Record): seq<Op> {
    [SendOp(rec), ReceiveOp]
  }

  lemma OneShotState(capacity: nat, rec: Record)
    requires CapacityOk(capacity) && RecordLen(|rec.payload|) < capacity
    ensures var r := Exec(New(capacity), OneShot(rec)).0;
      && r.head == r.tail == RecordLen(|rec.payload|)
      && |r.data| == capacity
  {
    hide Placed, Receive, RecordBytes, RecordLen, Inv;
    var len := RecordLen(|rec.payload|);
    NewIsEmpty(capacity);
    var r0 := New(capacity);
    assert Reserve(capacity, 0, 0, len) == Some(Plan(0, len, false));
    var v1 := SendAppends(r0, Straight([]), rec);
    var r1 := Send(r0, rec).value;
    var v2 := ReceivePops(r1, v1);
    var r2 := Receive(r1).1;
    ReceiveKeepsHead(r1);
    ReceiveKeepsHead(r0);
    EmptyIffCursorsMeet(r2.data, r2.head, r2.tail, v2);
    assert OneShot(rec)[1..] == [ReceiveOp];
    assert Exec(r1, [ReceiveOp]).0 == r2;
  }

  lemma ReceiveKeepsHead(r: Ring)
    ensures Receive(r).1.head == r.head && Receive(r).1.data == r.data
  {
  }

  ghost predicate AlwaysTakes(capacity: nat, n: nat) {
    forall ops: seq<Op>, rec: Record ::
      |rec.payload| == n && Exec(New(capacity), ops).0.head == Exec(New(capacity), ops).0.tail
      ==> Send(Exec(New(capacity), ops).0, rec).Some?
  }

  /** The progress bound: every drained state a ring can reach takes an `n`-byte payload if and
      only if two such records fit the ring. */
  lemma ProgressBound(capacity: nat, n: nat)
    requires CapacityOk(capacity) && RecordLen(n) < capacity
    ensures AlwaysTakes(capacity, n) <==> 2 * RecordLen(n) <= capacity
  {
    hide Exec, Send, RecordLen;
    if 2 * RecordLen(n) <= capacity {
      forall ops: seq<Op>, rec: Record |
        |rec.payload| == n && Exec(New(capacity), ops).0.head == Exec(New(capacity), ops).0.tail
        ensures Send(Exec(New(capacity), ops).0, rec).Some?
      {
        NewIsEmpty(capacity);
        var v := ExecRefines(New(capacity), Straight([]), ops);
        DrainedRoom(Exec(New(capacity), ops).0, v, rec);
      }
    } else {
      var rec := Record(Envelope(0, 0, 0), Zeros(n));
      StuckAfterOneShot(capacity, rec);
    }
  }

  lemma StuckAfterOneShot(capacity: nat, rec: Record)
    requires CapacityOk(capacity) && RecordLen(|rec.payload|) < capacity < 2 * RecordLen(|rec.payload|)
    ensures var r := Exec(New(capacity), OneShot(rec)).0;
      r.head == r.tail && forall rec': Record :: |rec'.payload| == |rec.payload| ==> Send(r, rec').None?
  {
    hide Exec, RecordLen, Send, OneShot;
    OneShotState(capacity, rec);
    NewIsEmpty(capacity);
    var v := ExecRefines(New(capacity), Straight([]), OneShot(rec));
    var r := Exec(New(capacity), OneShot(rec)).0;
    forall rec': Record | |rec'.payload| == |rec.payload|
      ensures Send(r, rec').None?
    {
      DrainedRoom(r, v, rec');
    }
  }

  /** An empty ring that refuses a payload length stays as it is under receives and sends of it. */
  lemma {:induction false} RefusingStays(r: Ring, n: nat, ops: seq<Op>)
    requires r.head == r.tail && forall rec: Record :: |rec.payload| == n ==> Send(r, rec).None?
    requires forall i :: 0 <= i < |ops| && ops[i].SendOp? ==> |ops[i].record.payload| == n
    ensures Exec(r, ops) == (r, [], [])
    decreases |ops|
  {
    hide Send, Apply;
    if ops == [] {
      assert Exec(r, []) == (r, [], []);
    } else {
      RefusedOp(r, n, ops[0]);
      RefusingStays(r, n, ops[1..]);
      var none: seq<Record> := [];
      assert none + none == none;
    }
  }

  lemma RefusedOp(r: Ring, n: nat, op: Op)
    requires r.head == r.tail && forall rec: Record :: |rec.payload| == n ==> Send(r, rec).None?
    requires op.SendOp? ==> |op.record.payload| == n
    ensures Apply(r, op) == (r, [], [])
  {
    hide Send;
  }

  /** Past the bound a single exchange wedges the ring for good: it is empty, and no later
      sequence of receives and sends of that payload length changes it or gets anything in. */
  lemma WedgedForever(capacity: nat, rec: Record, ops: seq<Op>)
    requires CapacityOk(capacity) && RecordLen(|rec.payload|) < capacity < 2 * RecordLen(|rec.payload|)
    requires forall i :: 0 <= i < |ops| && ops[i].SendOp? ==> |ops[i].record.payload| == |rec.payload|
    ensures Exec(Exec(New(capacity), OneShot(rec)).0, ops) == (Exec(New(capacity), OneShot(rec)).0, [], [])
  {
    hide RecordLen, Send, OneShot, Exec;
    StuckAfterOneShot(capacity, rec);
    RefusingStays(Exec(New(capacity), OneShot(rec)).0, |rec.payload|, ops);
  }
}
