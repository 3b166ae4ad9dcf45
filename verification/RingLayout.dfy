/**
 The byte layout of the message ring and the cursor arithmetic over it, as pure functions:
 what a record looks like in the data region, where the producer may place the next one,
 what the consumer reads back, and the invariant that ties the bytes to a queue of records.
 Both the sequential ring and the interleaved producer/consumer are proved against this.
 */
module RingLayout {
  import opened Bytes

  datatype Option<+T> = None | Some(value: T)

  const ENVELOPE_LEN := 8
  const MIN_CAPACITY := 64
  const SENTINEL := 0xFFFF_FFFF

  type U16 = n: int | 0 <= n < 0x1_0000

  datatype Envelope = Envelope(tag: Byte, ver: Byte, flags: U16)

  datatype Record = Record(envelope: Envelope, payload: seq<Byte>)

  /** Bytes a record of `n` payload bytes occupies, padding included. */
  function RecordLen(n: nat): (len: nat)
    ensures ENVELOPE_LEN + n <= len < ENVELOPE_LEN + n + 8 && len % 8 == 0
  {
    Align8(ENVELOPE_LEN + n)
  }

  function EnvelopeBytes(envelope: Envelope, n: nat): (s: seq<Byte>)
    ensures |s| == ENVELOPE_LEN
  {
    Le32(ENVELOPE_LEN + n) + [envelope.tag, envelope.ver] + Le16(envelope.flags)
  }

  /** Envelope, payload, and zero padding up to the record length. */
  function RecordBytes(r: Record): (s: seq<Byte>)
    ensures |s| == RecordLen(|r.payload|)
  {
    EnvelopeBytes(r.envelope, |r.payload|) + r.payload
      + Zeros(RecordLen(|r.payload|) - ENVELOPE_LEN - |r.payload|)
  }

  /** The wrap marker and the four bytes of zero fill behind it. */
  function SentinelBytes(): (s: seq<Byte>)
    ensures |s| == ENVELOPE_LEN
  {
    Le32(SENTINEL) + Zeros(4)
  }

  /** A record on the wire, byte by byte: the length of envelope and payload, low byte first, tag,
      version, the flags, low byte first, then the payload and zeros up to a multiple of eight. */
  lemma RecordOnTheWire(r: Record, k: nat)
    ensures var s, total := RecordBytes(r), 8 + |r.payload|;
      && |s| == (total + 7) / 8 * 8
      && s[..8] == [total % 0x100, total / 0x100 % 0x100, total / 0x1_0000 % 0x100, total / 0x100_0000 % 0x100,
                    r.envelope.tag, r.envelope.ver, r.envelope.flags % 0x100, r.envelope.flags / 0x100]
      && s[8..total] == r.payload
      && (total <= k < |s| ==> s[k] == 0)
  {
  }

  /** The wrap marker is four bytes of 0xFF and four of zero. */
  lemma MarkerOnTheWire()
    ensures SentinelBytes() == [0xFF, 0xFF, 0xFF, 0xFF, 0, 0, 0, 0]
  {
  }

  /** A queue of records laid end to end. */
  ghost function Encode(q: seq<Record>): seq<Byte> {
    if q == [] then [] else RecordBytes(q[0]) + Encode(q[1..])
  }

  lemma {:induction false} EncodeAligned(q: seq<Record>)
    ensures |Encode(q)| % 8 == 0
    ensures q != [] ==> |Encode(q)| >= ENVELOPE_LEN
  {
    hide RecordBytes, RecordLen;
    if q != [] {
      EncodeAligned(q[1..]);
      MultiplesOfEight(|RecordBytes(q[0])|, |Encode(q[1..])|);
    }
  }

  lemma MultiplesOfEight(a: nat, b: nat)
    requires a % 8 == 0 && b % 8 == 0
    ensures (a + b) % 8 == 0
  {
  }

  lemma EncodeEmpty()
    ensures Encode([]) == []
  {
  }

  lemma {:induction false} EncodeSnoc(q: seq<Record>, r: Record)
    ensures Encode(q + [r]) == Encode(q) + RecordBytes(r)
  {
    hide RecordBytes;
    if q == [] {
      assert q + [r] == [r];
      assert Encode([r]) == RecordBytes(r) + Encode([]);
    } else {
      EncodeSnoc(q[1..], r);
      assert (q + [r])[1..] == q[1..] + [r];
    }
  }

  // ----- Placement of the next record -----

  /** Where a reservation goes: the record's offset, the head after commit, and whether a
      wrap sentinel is written at the current head first. */
  datatype Plan = Plan(at: nat, next: nat, skip: bool)

  /** The cursors delimit the unread bytes: from tail up to head, around the end if need be. */
  predicate Unread(head: nat, tail: nat, i: nat) {
    if tail <= head then tail <= i < head else tail <= i || i < head
  }

  predicate CursorsOk(capacity: nat, head: nat, tail: nat) {
    capacity % 8 == 0 && head % 8 == 0 && tail % 8 == 0 && head < capacity && tail < capacity
  }

  /** A plan places `len` bytes at the head, or at zero once the rest of the region has been
      skipped; it touches no unread byte, stays clear of the wrap marker and never makes the ring
      look empty. */
  ghost predicate Places(capacity: nat, head: nat, tail: nat, len: nat, p: Plan) {
    && p.at + len <= capacity
    && p.at == (if p.skip then 0 else head)
    && (p.skip ==> head + len > capacity && tail <= head && len <= head && head + ENVELOPE_LEN <= capacity)
    && p.next == (if p.at + len == capacity then 0 else p.at + len)
    && p.next != tail
    && (forall i :: p.at <= i < p.at + len ==> !Unread(head, tail, i))
  }

  /** The producer's placement decision, branch for branch. */
  function Reserve(capacity: nat, head: nat, tail: nat, len: nat): Option<Plan> {
    if head >= capacity || tail >= capacity then None
    else if head >= tail then
      var spaceAtEnd := capacity - head;
      if spaceAtEnd >= len then
        var next := if head + len == capacity then 0 else head + len;
        if next == tail then None else Some(Plan(head, next, false))
      else if tail <= len then None
      else if spaceAtEnd < 4 then None
      else if len == tail then None
      else Some(Plan(0, len, true))
    else if len >= tail - head then None
    else Some(Plan(head, head + len, false))
  }

  /** The decision finds a placement exactly when there is one, and then it is that one: the
      test for a remainder too short to hold the marker never fires. */
  lemma ReserveIsExact(capacity: nat, head: nat, tail: nat, len: nat, p: Plan)
    requires CursorsOk(capacity, head, tail) && len % 8 == 0 && 0 < len < capacity
    ensures Places(capacity, head, tail, len, p) <==> Reserve(capacity, head, tail, len) == Some(p)
  {
    assert tail != head ==> Unread(head, tail, tail);
  }

  /** The consumer's tail has only moved forward since it was `seen`, and not past the head. */
  predicate Advanced(head: nat, seen: nat, tail: nat) {
    if seen <= head then seen <= tail <= head else seen <= tail || tail <= head
  }

  /** A placement decided against an old tail is still good: the free bytes can only have grown. */
  lemma PlacesStable(capacity: nat, head: nat, seen: nat, tail: nat, len: nat, p: Plan)
    requires CursorsOk(capacity, head, seen) && CursorsOk(capacity, head, tail)
    requires 0 < len && Advanced(head, seen, tail) && Places(capacity, head, seen, len, p)
    ensures Places(capacity, head, tail, len, p)
  {
    if seen > head && head + len > seen {
      assert Unread(head, seen, seen);
    }
    if seen < head && p.skip && seen < len {
      assert Unread(head, seen, seen);
    }
  }

  // ----- The queue held in the data region -----

  /** The committed records, in one piece or in two pieces around the end of the region.
      A wrapped front ends at the region's end or at a wrap marker. */
  datatype View =
    | Straight(q: seq<Record>)
    | Wrapped(front: seq<Record>, end: nat, back: seq<Record>)
  {
    function Queue(): seq<Record> {
      match this
      case Straight(q) => q
      case Wrapped(front, _, back) => front + back
    }

    /** The consumer stands on the wrap marker. */
    predicate AtMarker() {
      Wrapped? && front == []
    }
  }

  lemma SliceOfSlice<T>(s: seq<T>, lo: nat, hi: nat, i: nat, j: nat)
    requires i <= j && lo + j <= hi <= |s|
    ensures s[lo..hi][i..j] == s[lo + i..lo + j]
  {
    var t := s[lo..hi];
    forall k | 0 <= k < j - i
      ensures t[i..j][k] == s[lo + i..lo + j][k]
    {
      assert t[i..j][k] == t[i + k];
    }
  }

  lemma SliceIs<T>(s: seq<T>, at: nat, part: seq<T>)
    requires at + |part| <= |s|
    requires forall i :: 0 <= i < |part| ==> s[at + i] == part[i]
    ensures s[at..at + |part|] == part
  {
  }

  lemma SameSlice(data: seq<Byte>, data': seq<Byte>, lo: nat, hi: nat)
    requires lo <= hi <= |data| == |data'|
    requires forall i :: lo <= i < hi ==> data'[i] == data[i]
    ensures data'[lo..hi] == data[lo..hi]
  {
  }

  ghost predicate Inv(data: seq<Byte>, head: nat, tail: nat, v: View) {
    && MIN_CAPACITY <= |data| < SENTINEL
    && CursorsOk(|data|, head, tail)
    && match v
       case Straight(q) => tail <= head && data[tail..head] == Encode(q)
       case Wrapped(front, end, back) =>
         && head < tail <= end <= |data| && end % 8 == 0
         && data[tail..end] == Encode(front)
         && data[..head] == Encode(back)
         && (end < |data| ==> end + 4 <= |data| && data[end..end + 4] == Le32(SENTINEL) && back != [])
  }

  /** The cursors meet exactly when no committed record is left. */
  lemma EmptyIffCursorsMeet(data: seq<Byte>, head: nat, tail: nat, v: View)
    requires Inv(data, head, tail, v)
    ensures head == tail <==> v.Queue() == []
  {
    match v
    case Straight(q) => EncodeAligned(q);
    case Wrapped(front, end, back) => EncodeAligned(front);
  }

  /** Writes that stay off the unread bytes leave the queue as it was. */
  lemma FreeWritesKeepQueue(data: seq<Byte>, data': seq<Byte>, head: nat, tail: nat, v: View)
    requires Inv(data, head, tail, v) && |data'| == |data|
    requires forall i :: 0 <= i < |data| && Unread(head, tail, i) ==> data'[i] == data[i]
    ensures Inv(data', head, tail, v)
  {
    hide Encode, Le32;
    match v
    case Straight(q) =>
      SameSlice(data, data', tail, head);
    case Wrapped(front, end, back) =>
      SameSlice(data, data', tail, end);
      SameSlice(data, data', 0, head);
      if end < |data| {
        SameSlice(data, data', end, end + 4);
      }
  }

  function Appended(v: View, head: nat, p: Plan, r: Record, capacity: nat): View {
    match v
    case Straight(q) =>
      if p.skip then Wrapped(q, head, [r])
      else if p.next == 0 then Wrapped(q + [r], capacity, [])
      else Straight(q + [r])
    case Wrapped(front, end, back) => Wrapped(front, end, back + [r])
  }

  /** Publishing the head turns the bytes of the placed block into one more record. */
  lemma CommitAppends(data: seq<Byte>, head: nat, tail: nat, v: View, p: Plan, r: Record)
    requires Inv(data, head, tail, v)
    requires Places(|data|, head, tail, RecordLen(|r.payload|), p)
    requires data[p.at..p.at + RecordLen(|r.payload|)] == RecordBytes(r)
    requires p.skip ==> data[head..head + 4] == Le32(SENTINEL)
    ensures Inv(data, p.next, tail, Appended(v, head, p, r, |data|))
    ensures Appended(v, head, p, r, |data|).Queue() == v.Queue() + [r]
  {
    hide RecordBytes, RecordLen, Le32, Encode;
    var len := RecordLen(|r.payload|);
    match v
    case Straight(q) =>
      if p.skip {
        CommitAfterMarker(data, head, tail, q, p, r);
      } else {
        EncodeSnoc(q, r);
        EncodeEmpty();
        JoinSlices(data, tail, head, head + len);
        GrowsAtEnd(q, [], r);
      }
    case Wrapped(front, end, back) =>
      assert Unread(head, tail, tail);
      EncodeSnoc(back, r);
      JoinSlices(data, 0, head, head + len);
      GrowsAtEnd(front, back, r);
  }

  lemma GrowsAtEnd(front: seq<Record>, back: seq<Record>, r: Record)
    ensures front + (back + [r]) == front + back + [r] && front + [r] + [] == front + [r] && front + [] == front
  {
  }

  lemma CommitAfterMarker(data: seq<Byte>, head: nat, tail: nat, q: seq<Record>, p: Plan, r: Record)
    requires Inv(data, head, tail, Straight(q)) && p.skip
    requires Places(|data|, head, tail, RecordLen(|r.payload|), p)
    requires data[p.at..p.at + RecordLen(|r.payload|)] == RecordBytes(r)
    requires data[head..head + 4] == Le32(SENTINEL)
    ensures Inv(data, p.next, tail, Wrapped(q, head, [r]))
  {
    hide RecordBytes, RecordLen, Le32;
    EncodeSnoc([], r);
    assert [] + [r] == [r];
    assert Encode([]) == [];
    assert [] + RecordBytes(r) == RecordBytes(r);
    var len := RecordLen(|r.payload|);
    assert tail < head ==> Unread(head, tail, tail);
  }

  lemma JoinSlices<T>(s: seq<T>, lo: nat, mid: nat, hi: nat)
    requires lo <= mid <= hi <= |s|
    ensures s[lo..hi] == s[lo..mid] + s[mid..hi]
  {
  }

  // ----- Reading back -----

  function LenAt(data: seq<Byte>, at: nat): nat
    requires at + 4 <= |data|
  {
    FromLe32(data[at..at + 4])
  }

  function EnvelopeAt(data: seq<Byte>, at: nat): Envelope
    requires at + ENVELOPE_LEN <= |data|
  {
    Envelope(data[at + 4], data[at + 5], FromLe16(data[at + 6..at + 8]))
  }

  /** The consumer's reading of a record whose length word has been fetched. */
  function RecordAt(data: seq<Byte>, at: nat, total: nat): Record
    requires ENVELOPE_LEN <= total && at + total <= |data|
  {
    Record(EnvelopeAt(data, at), data[at + ENVELOPE_LEN..at + total])
  }

  /** Reading inverts writing. */
  lemma RecordReadsBack(data: seq<Byte>, at: nat, r: Record)
    requires at + RecordLen(|r.payload|) <= |data| < SENTINEL
    requires data[at..at + RecordLen(|r.payload|)] == RecordBytes(r)
    ensures LenAt(data, at) == ENVELOPE_LEN + |r.payload|
    ensures RecordAt(data, at, LenAt(data, at)) == r
  {
    hide Le32, Le16, FromLe32, FromLe16;
    var n := |r.payload|;
    var len := RecordLen(n);
    BlockParts(r);
    SliceOfSlice(data, at, at + len, 0, 4);
    Le32RoundTrip(ENVELOPE_LEN + n);
    SliceOfSlice(data, at, at + len, 6, 8);
    SliceOfSlice(data, at, at + len, ENVELOPE_LEN, ENVELOPE_LEN + n);
    var block := data[at..at + len];
    assert data[at + 4] == block[4] && data[at + 5] == block[5];
    Le16RoundTrip(r.envelope.flags);
  }

  /** The fields of a record block, by position. */
  lemma BlockParts(r: Record)
    ensures var block, n := RecordBytes(r), |r.payload|;
      && block[..4] == Le32(ENVELOPE_LEN + n)
      && block[4] == r.envelope.tag && block[5] == r.envelope.ver
      && block[6..8] == Le16(r.envelope.flags)
      && block[ENVELOPE_LEN..ENVELOPE_LEN + n] == r.payload
  {
    hide Le32, Le16, Zeros, RecordLen;
    var n := |r.payload|;
    var head := EnvelopeBytes(r.envelope, n);
    assert head[..4] == Le32(ENVELOPE_LEN + n);
    assert head[4] == r.envelope.tag && head[5] == r.envelope.ver;
    assert head[6..8] == Le16(r.envelope.flags);
    var block := RecordBytes(r);
    assert block[..8] == head;
    assert block[..4] == block[..8][..4];
    assert block[6..8] == block[..8][6..8];
    assert block[4] == block[..8][4] && block[5] == block[..8][5];
  }

  /** Off the marker, the bytes at the tail are the oldest record. */
  lemma FrontIsOldest(data: seq<Byte>, head: nat, tail: nat, v: View)
    requires Inv(data, head, tail, v) && head != tail && !v.AtMarker()
    ensures v.Queue() != []
    ensures var r := v.Queue()[0];
      && tail + RecordLen(|r.payload|) <= |data|
      && data[tail..tail + RecordLen(|r.payload|)] == RecordBytes(r)
      && LenAt(data, tail) == ENVELOPE_LEN + |r.payload| < SENTINEL
      && RecordAt(data, tail, LenAt(data, tail)) == r
  {
    hide RecordBytes, RecordLen, RecordAt, LenAt, Le32;
    EmptyIffCursorsMeet(data, head, tail, v);
    var r := v.Queue()[0];
    match v {
      case Straight(q) => RunStartsWith(data, tail, head, q);
      case Wrapped(front, end, back) => RunStartsWith(data, tail, end, front);
    }
    RecordReadsBack(data, tail, r);
  }

  lemma RunStartsWith(data: seq<Byte>, lo: nat, hi: nat, run: seq<Record>)
    requires lo <= hi <= |data| && run != [] && data[lo..hi] == Encode(run)
    ensures var len := RecordLen(|run[0].payload|);
      && lo + len <= hi
      && data[lo..lo + len] == RecordBytes(run[0])
      && data[lo + len..hi] == Encode(run[1..])
  {
    hide RecordBytes, RecordLen;
    var len := RecordLen(|run[0].payload|);
    var first, rest := RecordBytes(run[0]), Encode(run[1..]);
    assert data[lo..hi] == first + rest;
    assert |first| == len;
    SliceOfSlice(data, lo, hi, 0, len);
    SliceOfSlice(data, lo, hi, len, hi - lo);
    assert (first + rest)[0..len] == first;
    assert (first + rest)[len..hi - lo] == rest;
  }

  /** On the marker, the length word is the sentinel, and resetting the tail keeps the queue. */
  lemma MarkerIsSkipped(data: seq<Byte>, head: nat, tail: nat, v: View)
    requires Inv(data, head, tail, v) && v.AtMarker()
    ensures head != tail && tail != 0
    ensures LenAt(data, tail) == SENTINEL
    ensures Inv(data, head, 0, Straight(v.back)) && Straight(v.back).Queue() == v.Queue()
    ensures Advanced(head, tail, 0)
  {
    assert tail == v.end < |data|;
    Le32RoundTrip(SENTINEL);
  }

  /** Where the tail goes after a record of `total` unpadded bytes. */
  function TailAfter(capacity: nat, tail: nat, total: nat): nat {
    var next := tail + Align8(total);
    if next >= capacity then next - capacity else next
  }

  function Popped(v: View, tail': nat): View
    requires v.Queue() != [] && !v.AtMarker()
  {
    match v
    case Straight(q) => Straight(q[1..])
    case Wrapped(front, end, back) => if tail' == 0 then Straight(back) else Wrapped(front[1..], end, back)
  }

  /** Moving the tail past the oldest record removes exactly that record. */
  lemma PopRemovesOldest(data: seq<Byte>, head: nat, tail: nat, v: View)
    requires Inv(data, head, tail, v) && head != tail && !v.AtMarker()
    ensures v.Queue() != []
    ensures var tail' := TailAfter(|data|, tail, ENVELOPE_LEN + |v.Queue()[0].payload|);
      && Inv(data, head, tail', Popped(v, tail'))
      && Popped(v, tail').Queue() == v.Queue()[1..]
      && Advanced(head, tail, tail')
  {
    hide RecordBytes, RecordLen, RecordAt, LenAt, Le32, Encode, TailAfter, Inv, Popped;
    if v.Straight? {
      PopStraight(data, head, tail, v);
    } else {
      PopWrapped(data, head, tail, v);
    }
  }

  lemma PopStraight(data: seq<Byte>, head: nat, tail: nat, v: View)
    requires v.Straight? && Inv(data, head, tail, v) && head != tail
    ensures v.Queue() != []
    ensures var tail' := TailAfter(|data|, tail, ENVELOPE_LEN + |v.Queue()[0].payload|);
      && Inv(data, head, tail', Popped(v, tail'))
      && Popped(v, tail').Queue() == v.Queue()[1..]
      && Advanced(head, tail, tail')
  {
    hide RecordBytes, RecordLen, RecordAt, LenAt, Le32, Encode;
    FrontIsOldest(data, head, tail, v);
    PaddedLen(|v.Queue()[0].payload|);
    RunStartsWith(data, tail, head, v.q);
  }

  lemma PopWrapped(data: seq<Byte>, head: nat, tail: nat, v: View)
    requires v.Wrapped? && Inv(data, head, tail, v) && head != tail && !v.AtMarker()
    ensures v.Queue() != []
    ensures var tail' := TailAfter(|data|, tail, ENVELOPE_LEN + |v.Queue()[0].payload|);
      && Inv(data, head, tail', Popped(v, tail'))
      && Popped(v, tail').Queue() == v.Queue()[1..]
      && Advanced(head, tail, tail')
  {
    hide RecordBytes, RecordLen, RecordAt, LenAt, Le32, Encode, Inv, Align8, Popped;
    FrontIsOldest(data, head, tail, v);
    var r := v.Queue()[0];
    var next := tail + RecordLen(|r.payload|);
    PaddedLen(|r.payload|);
    WrappedParts(data, head, tail, v);
    RunStartsWith(data, tail, v.end, v.front);
    EncodeAligned(v.front[1..]);
    HeadFirst(v.front, v.back);
    if next == |data| {
      assert v.front[1..] == [];
      PopToFront(data, head, tail, v);
    } else {
      PopWithin(data, head, tail, v, next);
    }
  }

  lemma HeadFirst(front: seq<Record>, back: seq<Record>)
    requires front != []
    ensures front + back == [front[0]] + (front[1..] + back) && (front + back)[1..] == front[1..] + back
  {
  }

  lemma WrappedParts(data: seq<Byte>, head: nat, tail: nat, v: View)
    requires v.Wrapped? && Inv(data, head, tail, v)
    ensures head < tail <= v.end <= |data| && tail % 8 == 0 && data[tail..v.end] == Encode(v.front)
  {
    hide Encode, Le32;
  }

  /** The oldest record ended the region: the tail starts over at zero. */
  lemma PopToFront(data: seq<Byte>, head: nat, tail: nat, v: View)
    requires v.Wrapped? && Inv(data, head, tail, v) && v.front != [] && v.front[1..] == []
    ensures Popped(v, 0) == Straight(v.back) && Inv(data, head, 0, Straight(v.back))
  {
    hide Encode, Le32;
  }

  lemma PopWithin(data: seq<Byte>, head: nat, tail: nat, v: View, next: nat)
    requires v.Wrapped? && Inv(data, head, tail, v) && v.front != []
    requires tail < next <= v.end && next < |data| && next % 8 == 0 && data[next..v.end] == Encode(v.front[1..])
    ensures Popped(v, next) == Wrapped(v.front[1..], v.end, v.back) && Inv(data, head, next, Popped(v, next))
  {
    hide Encode, Le32;
  }

  lemma PaddedLen(n: nat)
    ensures Align8(ENVELOPE_LEN + n) == RecordLen(n)
  {
  }

  /** Every record takes at least an envelope, so the region's size bounds the queue. */
  lemma {:induction false} QueueFits(data: seq<Byte>, head: nat, tail: nat, v: View)
    requires Inv(data, head, tail, v)
    ensures 8 * |v.Queue()| <= |data|
  {
    hide Encode, Le32;
    match v
    case Straight(q) => EncodeLength(q);
    case Wrapped(front, end, back) =>
      EncodeLength(front);
      EncodeLength(back);
  }

  lemma {:induction false} EncodeLength(q: seq<Record>)
    ensures |Encode(q)| >= 8 * |q|
  {
    hide RecordBytes, RecordLen;
    if q != [] {
      EncodeLength(q[1..]);
    }
  }

  /** The marker's length word, in a region that still holds the marker. */
  lemma MarkerWord(d: seq<Byte>, marked: seq<Byte>, head: nat)
    requires head + ENVELOPE_LEN <= |marked| == |d|
    requires marked[head..head + ENVELOPE_LEN] == SentinelBytes()
    requires forall i :: head <= i < |d| ==> d[i] == marked[i]
    ensures d[head..head + 4] == Le32(SENTINEL)
  {
    hide Le32, Zeros;
    assert SentinelBytes()[..4] == Le32(SENTINEL);
    SameSlice(marked, d, head, head + ENVELOPE_LEN);
    SliceOfSlice(d, head, head + ENVELOPE_LEN, 0, 4);
  }
}
