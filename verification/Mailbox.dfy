/**
 The single-slot mailbox: a send overwrites, a take hands over the newest payload, and two wrapping
 32-bit sequence numbers tell whether anything is unread.
 */
module Mailbox {
  import opened Arithmetic
  import opened Bytes
  import opened RingLayout

  const ALIGNMENT := 8

  function AlignCapacity(capacity: nat): (c: nat)
    ensures c >= capacity && c >= ALIGNMENT && c % ALIGNMENT == 0
    ensures c < capacity + ALIGNMENT || (capacity == 0 && c == ALIGNMENT)
  {
    if capacity == 0 then ALIGNMENT
    else if capacity % ALIGNMENT == 0 then capacity
    else capacity + (ALIGNMENT - capacity % ALIGNMENT)
  }

  // ----- Envelopes in one word -----

  function Pack(e: Envelope): nat {
    e.tag as nat * 0x100_0000 + e.ver as nat * 0x1_0000 + e.flags as nat
  }

  function Unpack(bits: nat): Envelope {
    Envelope(bits / 0x100_0000 % 0x100, bits / 0x1_0000 % 0x100, bits % 0x1_0000)
  }

  lemma PackRoundTrip(e: Envelope)
    ensures Pack(e) < U32_LIMIT && Unpack(Pack(e)) == e
    ensures Pack(e) / 0x100_0000 == e.tag && Pack(e) / 0x1_0000 % 0x100 == e.ver && Pack(e) % 0x1_0000 == e.flags
  {
    var tag: int, ver: int, flags: int := e.tag as int, e.ver as int, e.flags as int;
    PackDigits(tag, ver, flags);
  }

  lemma PackDigits(tag: nat, ver: nat, flags: nat)
    requires tag < 0x100 && ver < 0x100 && flags < 0x1_0000
    ensures var bits := tag * 0x100_0000 + ver * 0x1_0000 + flags;
      bits < U32_LIMIT && bits / 0x100_0000 == tag && bits / 0x1_0000 % 0x100 == ver && bits % 0x1_0000 == flags
  {
    var bits := tag * 0x100_0000 + ver * 0x1_0000 + flags;
    assert bits / 0x1_0000 == tag * 0x100 + ver;
  }

  // ----- The mailbox as a value -----

  datatype Box = Box(data: seq<Byte>, write: nat, read: nat, len: nat, packed: nat)

  datatype Sent = Accepted | Coalesced | TooLarge

  function Empty(capacity: nat, default_: Envelope): Box {
    Box(Zeros(capacity), 0, 0, 0, Pack(default_))
  }

  function Send(b: Box, rec: Record): (Box, Sent) {
    if |rec.payload| > |b.data| then (b, TooLarge)
    else
      var next := (b.write + 1) % U32_LIMIT;
      (Box(Overwrite(b.data, 0, rec.payload), next, b.read, |rec.payload| % U32_LIMIT, Pack(rec.envelope)),
       if (next + U32_LIMIT - b.read % U32_LIMIT) % U32_LIMIT > 1 then Coalesced else Accepted)
  }

  function Take(b: Box): (Box, Option<Record>) {
    if b.write == b.read || b.len > |b.data| then (b, None)
    else (b.(read := b.write), Some(Record(Unpack(b.packed), b.data[..b.len])))
  }

  // ----- What a mailbox is for -----

  /** The newest message and how many were sent since the last take that returned one. */
  datatype Slot = Slot(unread: nat, last: Option<Record>)

  ghost predicate Refines(b: Box, s: Slot) {
    && |b.data| < U32_LIMIT && b.write < U32_LIMIT && b.read < U32_LIMIT
    && b.write == (b.read + s.unread) % U32_LIMIT
    && (s.unread > 0 ==>
          && s.last.Some? && b.len == |s.last.value.payload| <= |b.data|
          && b.data[..b.len] == s.last.value.payload && b.packed == Pack(s.last.value.envelope))
  }

  /** A send through the wrapping counters: what it reports is what the unread count says modulo
      their width. */
  function SlotSend(s: Slot, rec: Record): (Slot, Sent) {
    (Slot(s.unread + 1, Some(rec)), if (s.unread + 1) % U32_LIMIT > 1 then Coalesced else Accepted)
  }

  function SlotTake(s: Slot): (Slot, Option<Record>) {
    if s.unread % U32_LIMIT == 0 then (s, None) else (Slot(0, s.last), s.last)
  }

  lemma EmptyRefines(capacity: nat, default_: Envelope)
    requires capacity < U32_LIMIT
    ensures Refines(Empty(capacity, default_), Slot(0, None))
  {
  }

  lemma SendRefines(b: Box, s: Slot, rec: Record)
    requires Refines(b, s)
    ensures var (b', sent) := Send(b, rec);
      if |rec.payload| > |b.data| then b' == b && sent == TooLarge
      else Refines(b', SlotSend(s, rec).0) && sent == SlotSend(s, rec).1 && |b'.data| == |b.data|
  {
    hide Pack, Overwrite;
    if |rec.payload| <= |b.data| {
      OverwriteAt(b.data, 0, rec.payload);
      NextDistance(b.write, b.read, s.unread);
    }
  }

  lemma NextCounter(read: nat, unread: nat)
    ensures ((read + unread) % U32_LIMIT + 1) % U32_LIMIT == (read + (unread + 1)) % U32_LIMIT
  {
  }

  /** The distance between the counters after one more send. */
  lemma NextDistance(write: nat, read: nat, unread: nat)
    requires write < U32_LIMIT && read < U32_LIMIT && write == (read + unread) % U32_LIMIT
    ensures (write + 1) % U32_LIMIT == (read + (unread + 1)) % U32_LIMIT
    ensures ((write + 1) % U32_LIMIT + U32_LIMIT - read % U32_LIMIT) % U32_LIMIT == (unread + 1) % U32_LIMIT
  {
    NextCounter(read, unread);
    Distance(read, unread + 1, U32_LIMIT);
  }

  lemma Distance(read: nat, t: nat, c: nat)
    requires read < c
    ensures ((read + t) % c + c - read) % c == t % c
  {
    var k, n := (read + t) / c, (read + t) % c;
    assert read + t == k * c + n;
    if k == 0 {
      AddOneMultiple(t, c);
    } else {
      assert (k - 1) * c == k * c - c;
      ModAddsMultiple(k - 1, c, n + c - read);
    }
  }

  lemma TakeRefines(b: Box, s: Slot)
    requires Refines(b, s)
    ensures var (b', out) := Take(b);
      Refines(b', SlotTake(s).0) && out == SlotTake(s).1 && |b'.data| == |b.data|
  {
    hide Pack, Unpack;
    SameSequence(b.read, s.unread);
    if s.unread > 0 { PackRoundTrip(s.last.value.envelope); }
  }

  lemma SameSequence(read: nat, unread: nat)
    requires read < U32_LIMIT
    ensures (read + unread) % U32_LIMIT == read <==> unread % U32_LIMIT == 0
  {
  }

  // ----- Runs -----

  datatype Op = Put(rec: Record) | Get

  datatype Reply = Said(sent: Sent) | Got(out: Option<Record>)

  function Replies(b: Box, ops: seq<Op>): seq<Reply>
    decreases |ops|
  {
    if ops == [] then []
    else match ops[0]
      case Put(rec) => [Said(Send(b, rec).1)] + Replies(Send(b, rec).0, ops[1..])
      case Get => [Got(Take(b).1)] + Replies(Take(b).0, ops[1..])
  }

  function SlotReplies(capacity: nat, s: Slot, ops: seq<Op>): seq<Reply>
    decreases |ops|
  {
    if ops == [] then []
    else match ops[0]
      case Put(rec) =>
        if |rec.payload| > capacity then [Said(TooLarge)] + SlotReplies(capacity, s, ops[1..])
        else [Said(SlotSend(s, rec).1)] + SlotReplies(capacity, SlotSend(s, rec).0, ops[1..])
      case Get => [Got(SlotTake(s).1)] + SlotReplies(capacity, SlotTake(s).0, ops[1..])
  }

  lemma {:induction false} RunsRefine(b: Box, s: Slot, ops: seq<Op>)
    requires Refines(b, s)
    ensures Replies(b, ops) == SlotReplies(|b.data|, s, ops)
    decreases |ops|
  {
    hide Refines, Send, Take, SlotSend, SlotTake;
    if ops != [] {
      match ops[0] {
        case Put(rec) =>
          SendRefines(b, s, rec);
          if |rec.payload| > |b.data| {
            RunsRefine(b, s, ops[1..]);
          } else {
            RunsRefine(Send(b, rec).0, SlotSend(s, rec).0, ops[1..]);
          }
        case Get =>
          TakeRefines(b, s);
          RunsRefine(Take(b).0, SlotTake(s).0, ops[1..]);
      }
    }
  }

  /** The ideal: a register holding the newest unread message. */
  function Ideal(capacity: nat, unread: Option<Record>, ops: seq<Op>): seq<Reply>
    decreases |ops|
  {
    if ops == [] then []
    else match ops[0]
      case Put(rec) =>
        if |rec.payload| > capacity then [Said(TooLarge)] + Ideal(capacity, unread, ops[1..])
        else [Said(if unread.Some? then Coalesced else Accepted)] + Ideal(capacity, Some(rec), ops[1..])
      case Get => [Got(unread)] + Ideal(capacity, None, ops[1..])
  }

  /** No more than 2^32 - 1 sends ever wait for a take. */
  predicate Bounded(capacity: nat, waiting: nat, ops: seq<Op>)
    decreases |ops|
  {
    waiting < U32_LIMIT
    && (ops == []
        || match ops[0]
           case Put(rec) => Bounded(capacity, if |rec.payload| > capacity then waiting else waiting + 1, ops[1..])
           case Get => Bounded(capacity, 0, ops[1..]))
  }

  lemma {:induction false} SlotIsIdeal(capacity: nat, s: Slot, ops: seq<Op>)
    requires Bounded(capacity, s.unread, ops) && (s.unread > 0 ==> s.last.Some?)
    ensures SlotReplies(capacity, s, ops) == Ideal(capacity, if s.unread > 0 then s.last else None, ops)
    decreases |ops|
  {
    if ops != [] {
      match ops[0] {
        case Put(rec) =>
          if |rec.payload| > capacity {
            SlotIsIdeal(capacity, s, ops[1..]);
          } else {
            assert Bounded(capacity, s.unread + 1, ops[1..]);
            SlotIsIdeal(capacity, SlotSend(s, rec).0, ops[1..]);
          }
        case Get => SlotIsIdeal(capacity, SlotTake(s).0, ops[1..]);
      }
    }
  }

  /** The send that takes the unread count to 2^32 reports Accepted although it replaces one. */
  lemma {:induction false} UnboundedShows(capacity: nat, s: Slot, ops: seq<Op>)
    requires s.unread < U32_LIMIT && !Bounded(capacity, s.unread, ops) && (s.unread > 0 ==> s.last.Some?)
    ensures SlotReplies(capacity, s, ops) != Ideal(capacity, if s.unread > 0 then s.last else None, ops)
    decreases |ops|
  {
    var told, due := SlotReplies(capacity, s, ops), Ideal(capacity, if s.unread > 0 then s.last else None, ops);
    match ops[0] {
      case Put(rec) =>
        if |rec.payload| > capacity {
          UnboundedShows(capacity, s, ops[1..]);
          assert told[1..] != due[1..];
        } else if s.unread + 1 < U32_LIMIT {
          UnboundedShows(capacity, SlotSend(s, rec).0, ops[1..]);
          assert told[1..] != due[1..];
        } else {
          assert told[0] == Said(Accepted) && due[0] == Said(Coalesced);
        }
      case Get =>
        UnboundedShows(capacity, SlotTake(s).0, ops[1..]);
        assert told[1..] != due[1..];
    }
  }

  /** Last write wins, exactly: wherever the sequence numbers start to wrap, every take of a run returns
      the newest unread message, or None without one, and every send reports Coalesced when it replaces
      an unread one and Accepted when not, if and only if never 2^32 sends wait for a take. */
  lemma LastWriteWins(capacity: nat, default_: Envelope, ops: seq<Op>)
    requires capacity < U32_LIMIT
    ensures Replies(Empty(capacity, default_), ops) == Ideal(capacity, None, ops) <==> Bounded(capacity, 0, ops)
  {
    hide Replies, SlotReplies, Ideal, Empty, Refines, Bounded;
    EmptyRefines(capacity, default_);
    EmptySize(capacity, default_);
    RunsRefine(Empty(capacity, default_), Slot(0, None), ops);
    if Bounded(capacity, 0, ops) {
      SlotIsIdeal(capacity, Slot(0, None), ops);
    } else {
      UnboundedShows(capacity, Slot(0, None), ops);
    }
  }

  lemma EmptySize(capacity: nat, default_: Envelope)
    ensures |Empty(capacity, default_).data| == capacity
  {
  }

  // ----- The mailbox in its region -----

  class SharedMailbox {
    const data: array<Byte>
    var writeSeq: nat
    var readSeq: nat
    var payloadLen: nat
    var packed: nat
    const default_: Envelope
    ghost var slot: Slot

    ghost function Value(): Box
      reads this, data
    {
      Box(data[..], writeSeq, readSeq, payloadLen, packed)
    }

    ghost predicate Valid()
      reads this, data
    {
      Refines(Value(), slot)
    }

    constructor (capacity: nat, envelope: Envelope)
      requires AlignCapacity(capacity) < U32_LIMIT
      ensures fresh(data) && data.Length == AlignCapacity(capacity) && default_ == envelope
      ensures Value() == Empty(AlignCapacity(capacity), envelope) && Valid() && slot == Slot(0, None)
    {
      data := new Byte[AlignCapacity(capacity)](_ => 0);
      writeSeq, readSeq, payloadLen, packed := 0, 0, 0, Pack(envelope);
      default_ := envelope;
      slot := Slot(0, None);
      new;
      assert data[..] == Zeros(data.Length);
    }

    method CopyPayload(payload: seq<Byte>)
      requires |payload| <= data.Length
      modifies data
      ensures data[..] == Overwrite(old(data[..]), 0, payload)
    {
      var i := 0;
      while i < |payload|
        invariant 0 <= i <= |payload|
        invariant data[..i] == payload[..i]
        invariant forall j :: i <= j < data.Length ==> data[j] == old(data[j])
      {
        data[i] := payload[i];
        i := i + 1;
      }
      assert data[|payload|..] == old(data[..])[|payload|..];
      assert data[..] == data[..|payload|] + data[|payload|..];
    }

    method TrySend(payload: seq<Byte>, envelope: Option<Envelope>) returns (sent: Sent)
      requires Valid()
      modifies this, data
      ensures Valid()
      ensures var rec := Record(if envelope.Some? then envelope.value else default_, payload);
        && (Value(), sent) == Send(old(Value()), rec)
        && slot == if |payload| > data.Length then old(slot) else SlotSend(old(slot), rec).0
    {
      hide Refines, Pack, Overwrite, AlignCapacity, SlotSend;
      var env := if envelope.Some? then envelope.value else default_;
      ghost var before := Value();
      SendRefines(before, slot, Record(env, payload));
      SequencesSmall(before, slot);
      if |payload| > data.Length { return TooLarge; }
      CopyPayload(payload);
      var next := (writeSeq + 1) % U32_LIMIT;
      payloadLen := |payload| % U32_LIMIT;
      packed := Pack(env);
      writeSeq := next;
      slot := SlotSend(slot, Record(env, payload)).0;
      if (next + U32_LIMIT - readSeq) % U32_LIMIT > 1 {
        sent := Coalesced;
      } else {
        sent := Accepted;
      }
    }

    method TakeLatest() returns (out: Option<Record>)
      requires Valid()
      modifies this
      ensures Valid()
      ensures (Value(), out) == Take(old(Value())) && slot == SlotTake(old(slot)).0
      ensures out == SlotTake(old(slot)).1
    {
      hide Pack, Unpack;
      ghost var before := Value();
      TakeRefines(before, slot);
      SameSequence(readSeq, slot.unread);
      slot := SlotTake(slot).0;
      if writeSeq == readSeq { return None; }
      readSeq := writeSeq;
      return Some(Record(Unpack(packed), data[..payloadLen]));
    }
  }

  lemma SequencesSmall(b: Box, s: Slot)
    requires Refines(b, s)
    ensures b.read < U32_LIMIT && b.write < U32_LIMIT && |b.data| < U32_LIMIT
  {
  }
}
