/**
 The message ring that lives in a byte array: reserve, write, commit on the producer's side,
 peek and pop on the consumer's, each updating the region or a cursor in place. The ghost
 view says which records the bytes between the cursors hold.
 */
module MsgRing {
  import opened Bytes
  import opened RingLayout
  import opened RingValue

  /** A reservation: where the block goes, and what will be committed there. */
  datatype Grant = Grant(plan: Plan, need: nat, envelope: Envelope)

  datatype Meta = Meta(envelope: Envelope, totalLen: nat)

  /** A failed consistency check of the consumer stops the program. */
  datatype Peek = Empty | Item(record: Record, at: nat) | Panic

  /** Requested capacities are raised to the minimum and rounded up; what does not stay below
      the 32-bit limit is refused. */
  function AlignedCapacity(requested: nat): (c: Option<nat>)
    ensures c.Some? ==> CapacityOk(c.value) && requested <= c.value
    ensures c.None? <==> Align8(if requested < MIN_CAPACITY then MIN_CAPACITY else requested) >= SENTINEL
  {
    var aligned := Align8(if requested < MIN_CAPACITY then MIN_CAPACITY else requested);
    if aligned >= SENTINEL then None else Some(aligned)
  }

  class MsgRing {
    const capacity: nat
    const data: array<Byte>
    var head: nat
    var tail: nat
    var meta: Option<Meta>
    ghost var view: View

    ghost predicate Valid()
      reads this, data
    {
      && data.Length == capacity
      && Inv(data[..], head, tail, view)
      && (meta.Some? ==>
            && !view.AtMarker() && view.Queue() != []
            && meta.value == MetaOf(view.Queue()[0]))
    }

    static function MetaOf(r: Record): Meta {
      Meta(r.envelope, ENVELOPE_LEN + |r.payload|)
    }

    /** The committed records not yet popped, oldest first. */
    ghost function Queue(): seq<Record>
      reads this
    {
      view.Queue()
    }

    /** The region and the cursors as a value. */
    ghost function Value(): Ring
      reads this, data
    {
      Ring(data[..], head, tail)
    }

    /** The grant's block is free, and the marker it needs is in place. */
    ghost predicate Granted(g: Grant)
      reads this, data
    {
      && data.Length == capacity
      && Places(capacity, head, tail, RecordLen(g.need), g.plan)
      && (g.plan.skip ==> data[head..head + 4] == Le32(SENTINEL))
    }

    constructor (aligned: nat)
      requires CapacityOk(aligned)
      ensures Valid() && fresh(data)
      ensures capacity == aligned && Queue() == [] && Value() == New(aligned)
    {
      capacity := aligned;
      data := new Byte[aligned](_ => 0);
      head, tail, meta := 0, 0, None;
      view := Straight([]);
      new;
      assert data[..] == Zeros(aligned);
      NewIsEmpty(aligned);
    }

    /** Copies a block into the region. */
    method CopyInto(at: nat, block: seq<Byte>)
      requires data.Length == capacity && at + |block| <= capacity
      modifies data
      ensures data[..] == Overwrite(old(data[..]), at, block)
    {
      var i := 0;
      while i < |block|
        invariant 0 <= i <= |block|
        invariant data[at..at + i] == block[..i]
        invariant forall j :: 0 <= j < at || at + i <= j < capacity ==> data[j] == old(data[j])
      {
        data[at + i] := block[i];
        i := i + 1;
      }
      assert data[..at] == old(data[..])[..at];
      assert data[at + |block|..] == old(data[..])[at + |block|..];
      assert data[..] == data[..at] + data[at..at + |block|] + data[at + |block|..];
    }

    /** Finds room for `need` payload bytes, writing the wrap marker when the record goes to
        the front of the region. Refused exactly when no placement exists. */
    method TryReserveWith(envelope: Envelope, need: nat) returns (grant: Option<Grant>)
      requires Valid()
      modifies data
      ensures Valid()
      ensures grant.Some? ==>
        grant.value.need == need && grant.value.envelope == envelope && Granted(grant.value)
      ensures grant.None? ==> data[..] == old(data[..])
      ensures grant.None? <==>
        (RecordLen(need) >= capacity || forall p :: !Places(capacity, head, tail, RecordLen(need), p))
    {
      hide RecordLen, Reserve, Inv;
      if ENVELOPE_LEN + need >= capacity { return None; }
      var len := RecordLen(need);
      if len >= capacity { return None; }
      ghost var v := view;
      RangeOf(Value(), v);
      forall p { ReserveIsExact(capacity, head, tail, len, p); }
      var plan := Reserve(capacity, head, tail, len);
      if plan.None? { return None; }
      if plan.value.skip {
        ghost var before := data[..];
        CopyInto(head, SentinelBytes());
        MarkerIsHarmless(before, data[..], head, tail, v, len, plan.value);
      }
      return Some(Grant(plan.value, need, envelope));
    }

    /** Writes the payload through the grant. */
    method WritePayload(g: Grant, payload: seq<Byte>)
      requires Valid() && Granted(g) && |payload| <= g.need
      modifies data
      ensures Valid() && Granted(g)
      ensures data[g.plan.at + ENVELOPE_LEN..g.plan.at + ENVELOPE_LEN + |payload|] == payload
    {
      hide RecordLen, Inv;
      ghost var before, v := data[..], view;
      CopyInto(g.plan.at + ENVELOPE_LEN, payload);
      InBlockIsHarmless(before, data[..], g.plan.at + ENVELOPE_LEN, payload, head, tail, v, RecordLen(g.need), g.plan);
    }

    /** Writes the envelope and the padding, then publishes the new head. The head moves by the
        reserved length, whatever was written; only a commit that fills the reserved block
        keeps the ring readable. */
    method Commit(g: Grant, written: nat) returns (n: nat)
      requires Valid() && Granted(g) && written <= g.need
      modifies this`head, this`view, data
      ensures n == written && head == g.plan.next && data.Length == capacity
      ensures data[..] == CommitBytes(old(data[..]), g, written)
      ensures RecordLen(written) == RecordLen(g.need) ==>
        Valid() && Queue() == old(Queue())
          + [Record(g.envelope, old(data[g.plan.at + ENVELOPE_LEN..g.plan.at + ENVELOPE_LEN + written]))]
    {
      hide RecordLen, Inv, Places, EnvelopeBytes, Overwrite, Zeros;
      ghost var before, v, h := data[..], view, head;
      var at := g.plan.at;
      GrantFits(capacity, head, tail, g);
      CopyInto(at, EnvelopeBytes(g.envelope, written));
      var payloadEnd := at + ENVELOPE_LEN + written;
      if payloadEnd < at + RecordLen(g.need) {
        CopyInto(payloadEnd, Zeros(at + RecordLen(g.need) - payloadEnd));
      }
      assert data[..] == CommitBytes(before, g, written);
      head := g.plan.next;
      ghost var rec := Record(g.envelope, before[at + ENVELOPE_LEN..payloadEnd]);
      view := Appended(v, h, g.plan, rec, capacity);
      if RecordLen(written) == RecordLen(g.need) {
        FullCommit(before, h, tail, v, g, written);
      }
      n := written;
    }

    /** Looks at the oldest record, first stepping over the wrap marker if the tail stands on it.
        None of the consistency checks can fail. */
    method ConsumerPeek() returns (seen: Peek)
      requires Valid()
      modifies this`tail, this`meta, this`view
      ensures Valid() && Queue() == old(Queue())
      ensures Queue() == [] ==> seen == Empty
      ensures Queue() != [] ==> seen == Item(Queue()[0], tail) && tail % 8 == 0 && meta.Some?
    {
      hide Inv, LenAt, RecordAt, RecordLen, RecordBytes, Le32;
      var t := tail;
      while true
        invariant Valid() && t == tail && Queue() == old(Queue())
        decreases t
      {
        RangeOf(Value(), view);
        EmptyIffCursorsMeet(data[..], head, tail, view);
        if head == t {
          meta := None;
          return Empty;
        }
        if t + 4 > capacity { return Panic; }
        var total := LenAt(data[..], t);
        if view.AtMarker() {
          MarkerIsSkipped(data[..], head, tail, view);
        } else {
          FrontIsOldest(data[..], head, tail, view);
        }
        if total == SENTINEL {
          tail := 0;
          view := Straight(view.back);
          t := 0;
        } else {
          if total < ENVELOPE_LEN || t + total > capacity { return Panic; }
          var record := RecordAt(data[..], t, total);
          meta := Some(Meta(record.envelope, total));
          return Item(record, t);
        }
      }
    }

    /** Moves the tail past the oldest record. Without a peek first it stops the program exactly
        when the tail stands on the wrap marker; on an empty ring it does nothing. */
    method ConsumerPopAdvance() returns (ok: bool)
      requires Valid()
      modifies this`tail, this`meta, this`view
      ensures Valid()
      ensures ok <==> !old(view.AtMarker())
      ensures !ok ==> view == old(view) && tail == old(tail) && meta.None?
      ensures ok ==> Queue() == if old(Queue()) == [] then [] else old(Queue())[1..]
    {
      hide Inv, LenAt, RecordAt, RecordLen, RecordBytes, Le32, EnvelopeAt;
      RangeOf(Value(), view);
      EmptyIffCursorsMeet(data[..], head, tail, view);
      if view.AtMarker() {
        MarkerIsSkipped(data[..], head, tail, view);
      } else if tail != head {
        FrontIsOldest(data[..], head, tail, view);
        PopRemovesOldest(data[..], head, tail, view);
      }
      if tail == head {
        meta := None;
        return true;
      }
      var m := meta;
      if m.None? && LenAt(data[..], tail) != SENTINEL {
        m := Some(Meta(EnvelopeAt(data[..], tail), LenAt(data[..], tail)));
      }
      if m.None? { return false; }
      view := Popped(view, TailAfter(capacity, tail, m.value.totalLen));
      tail := TailAfter(capacity, tail, m.value.totalLen);
      meta := None;
      return true;
    }
  }

  /** The region after a commit of `written` bytes: envelope, zero fill, nothing else. */
  function CommitBytes(data: seq<Byte>, g: Grant, written: nat): (d: seq<Byte>)
    ensures |d| == |data|
  {
    var end, stop := g.plan.at + ENVELOPE_LEN + written, g.plan.at + RecordLen(g.need);
    var d :=
      if g.plan.at + ENVELOPE_LEN <= |data| then Overwrite(data, g.plan.at, EnvelopeBytes(g.envelope, written))
      else data;
    if end < stop <= |data| then Overwrite(d, end, Zeros(stop - end)) else d
  }

  lemma RangeOf(r: Ring, v: View)
    requires Holds(r, v)
    ensures CursorsOk(|r.data|, r.head, r.tail) && CapacityOk(|r.data|)
  {
  }

  lemma GrantFits(capacity: nat, head: nat, tail: nat, g: Grant)
    requires Places(capacity, head, tail, RecordLen(g.need), g.plan)
    ensures g.plan.at + RecordLen(g.need) <= capacity
  {
  }

  /** Writing the marker touches free bytes only. */
  lemma MarkerIsHarmless(before: seq<Byte>, after: seq<Byte>, head: nat, tail: nat, v: View, len: nat, p: Plan)
    requires Inv(before, head, tail, v) && Places(|before|, head, tail, len, p) && p.skip
    requires after == Overwrite(before, head, SentinelBytes())
    ensures Inv(after, head, tail, v) && after[head..head + 4] == Le32(SENTINEL)
  {
    hide Overwrite, Le32, SentinelBytes, Inv;
    OverwriteAt(before, head, SentinelBytes());
    FreeWritesKeepQueue(before, after, head, tail, v);
    MarkerWord(after, after, head);
  }

  /** Writing inside the block of a grant keeps the queue and the marker. */
  lemma InBlockIsHarmless(before: seq<Byte>, after: seq<Byte>, at: nat, block: seq<Byte>,
                          head: nat, tail: nat, v: View, len: nat, p: Plan)
    requires Inv(before, head, tail, v) && Places(|before|, head, tail, len, p)
    requires p.at <= at && at + |block| <= p.at + len
    requires after == Overwrite(before, at, block)
    ensures Inv(after, head, tail, v)
    ensures after[at..at + |block|] == block
    ensures p.skip ==> after[head..head + 4] == before[head..head + 4]
  {
    hide Overwrite, Inv, Unread;
    OverwriteAt(before, at, block);
    FreeWritesKeepQueue(before, after, head, tail, v);
    if p.skip {
      SameSlice(before, after, head, head + 4);
    }
  }

  /** The committed block: envelope, the payload bytes already there, zeros to the reserved end. */
  lemma CommittedBlock(data: seq<Byte>, g: Grant, written: nat)
    requires g.plan.at + RecordLen(g.need) <= |data| && written <= g.need
    ensures var at, len := g.plan.at, RecordLen(g.need);
      var d := CommitBytes(data, g, written);
      && d[at..at + len] == EnvelopeBytes(g.envelope, written)
           + data[at + ENVELOPE_LEN..at + ENVELOPE_LEN + written] + Zeros(len - ENVELOPE_LEN - written)
      && forall i :: 0 <= i < at || at + len <= i < |data| ==> d[i] == data[i]
  {
    hide RecordLen, EnvelopeBytes, Overwrite, Zeros;
    var at, len := g.plan.at, RecordLen(g.need);
    var end := at + ENVELOPE_LEN + written;
    var env, zeros := EnvelopeBytes(g.envelope, written), Zeros(at + len - end);
    OverwriteAt(data, at, env);
    var d1 := Overwrite(data, at, env);
    OverwriteAt(d1, end, zeros);
    var d := CommitBytes(data, g, written);
    var body := data[at + ENVELOPE_LEN..end];
    forall i | 0 <= i < len
      ensures d[at + i] == (env + body + zeros)[i]
    {
      if i < ENVELOPE_LEN {
        assert d1[at..at + ENVELOPE_LEN][i] == env[i];
      } else if i >= ENVELOPE_LEN + written {
        assert d[end..at + len][i - ENVELOPE_LEN - written] == zeros[i - ENVELOPE_LEN - written];
      }
    }
    SliceIs(d, at, env + body + zeros);
  }

  lemma FullCommit(before: seq<Byte>, head: nat, tail: nat, v: View, g: Grant, written: nat)
    requires Inv(before, head, tail, v) && Places(|before|, head, tail, RecordLen(g.need), g.plan)
    requires written <= g.need && RecordLen(written) == RecordLen(g.need)
    requires g.plan.skip ==> before[head..head + 4] == Le32(SENTINEL)
    ensures g.plan.at + ENVELOPE_LEN + written <= |before|
    ensures var rec := Record(g.envelope, before[g.plan.at + ENVELOPE_LEN..g.plan.at + ENVELOPE_LEN + written]);
      var v' := Appended(v, head, g.plan, rec, |before|);
      && Inv(CommitBytes(before, g, written), g.plan.next, tail, v')
      && v'.Queue() == v.Queue() + [rec]
  {
    hide Inv, CommitBytes, EnvelopeBytes, Zeros, RecordLen, Unread, Le32;
    CommittedBlock(before, g, written);
    var d := CommitBytes(before, g, written);
    var rec := Record(g.envelope, before[g.plan.at + ENVELOPE_LEN..g.plan.at + ENVELOPE_LEN + written]);
    FreeWritesKeepQueue(before, d, head, tail, v);
    if g.plan.skip {
      SameSlice(before, d, head, head + 4);
    }
    CommitAppends(d, head, tail, v, g.plan, rec);
  }

  // ----- Commits shorter than the reservation -----

  /** The consumer's peek would stop the program on this ring. */
  predicate PeekPanics(r: Ring) {
    && r.head != r.tail && r.tail + ENVELOPE_LEN <= |r.data|
    && LenAt(r.data, r.tail) != SENTINEL
    && !(ENVELOPE_LEN <= LenAt(r.data, r.tail) <= |r.data| - r.tail)
  }

  /** The ring after a grant on it was committed with `written` bytes. */
  ghost function Committed(r: Ring, g: Grant, written: nat): Ring {
    Ring(CommitBytes(r.data, g, written), g.plan.next, r.tail)
  }

  /** A grant of `need` bytes made on this ring, its marker in place if it has one. */
  ghost predicate GrantOn(r: Ring, g: Grant) {
    && Places(|r.data|, r.head, r.tail, RecordLen(g.need), g.plan)
    && (g.plan.skip ==> r.data[r.head..r.head + 4] == Le32(SENTINEL))
  }

  /** A drained ring, a grant on it, and a commit of only `written` bytes. */
  lemma DrainedShortCommit(r: Ring, v: View, g: Grant, written: nat)
    requires Holds(r, v) && r.head == r.tail && written <= g.need && GrantOn(r, g)
    ensures var at := g.plan.at + ENVELOPE_LEN;
      var (got, rest) := Receive(Committed(r, g, written));
      && at + written <= |r.data|
      && got == Some(Record(g.envelope, r.data[at..at + written]))
      && (PeekPanics(rest) <==> RecordLen(written) != RecordLen(g.need))
      && (rest.head == rest.tail <==> RecordLen(written) == RecordLen(g.need))
  {
    hide Inv, CommitBytes, Le32, RecordLen, LenAt, RecordAt, TailAfter, Unread;
    var at, len, short := g.plan.at, RecordLen(g.need), RecordLen(written);
    var d := CommitBytes(r.data, g, written);
    RangeOf(r, v);
    ShortFits(g.need, written);
    ShortBlock(r, v, g, written, len, short);
    ShortTail(|d|, at, ENVELOPE_LEN + written, short, len);
    PaddedLen(written);
  }

  /** What `n` receives hand over, and the ring they leave. */
  ghost function Handed(r: Ring, n: nat): (seq<Record>, Ring)
    decreases n
  {
    if n == 0 then ([], r)
    else
      var (got, r') := Receive(r);
      var (more, r'') := Handed(r', n - 1);
      ((if got.Some? then [got.value] else []) + more, r'')
  }

  /** A receive moves the tail forward, not past the head, and nothing else. */
  lemma ReceiveAdvances(r: Ring, v: View)
    requires Holds(r, v) && v.Queue() != []
    ensures Receive(r).0.Some? && Receive(r).1 == r.(tail := Receive(r).1.tail)
    ensures Advanced(r.head, r.tail, Receive(r).1.tail)
  {
    hide LenAt, RecordAt, Inv, RecordLen, RecordBytes, Le32, TailAfter;
    var v' := ReceivePops(r, v);
    EmptyIffCursorsMeet(r.data, r.head, r.tail, v);
    var w, t := v, r.tail;
    if v.AtMarker() {
      MarkerIsSkipped(r.data, r.head, r.tail, v);
      WrappedCursors(r, v);
      w, t := Straight(v.back), 0;
      EmptyIffCursorsMeet(r.data, r.head, 0, w);
    }
    FrontIsOldest(r.data, r.head, t, w);
    PopRemovesOldest(r.data, r.head, t, w);
  }

  lemma WrappedCursors(r: Ring, v: View)
    requires Holds(r, v) && v.Wrapped?
    ensures r.head < r.tail
  {
  }

  /** The read does not look at the head beyond asking whether it has been met. */
  lemma HeadElsewhere(r: Ring, head: nat)
    requires Receive(r).0.Some? && head != r.tail && (LenAt(r.data, r.tail) == SENTINEL ==> head != 0)
    ensures Receive(r.(head := head)) == (Receive(r).0, Receive(r).1.(head := head))
  {
    hide LenAt, RecordAt, TailAfter;
  }

  /** While older records are queued, a receive finds the oldest of them just as if the commit had not
      been made, and the grant is as good on what it leaves. */
  lemma ReceiveCommutes(r: Ring, v: View, g: Grant, written: nat)
    requires Holds(r, v) && v.Queue() != [] && GrantOn(r, g) && written <= g.need
    ensures Receive(Committed(r, g, written)) == (Some(v.Queue()[0]), Committed(Receive(r).1, g, written))
    ensures GrantOn(Receive(r).1, g)
  {
    hide Holds, CommitBytes, Le32, RecordLen, Receive, Unread;
    var d := CommitBytes(r.data, g, written);
    var v' := ReceivePops(r, v);
    ReceiveAdvances(r, v);
    RangeOf(r, v);
    RangeOf(Receive(r).1, v');
    PlacesStable(|r.data|, r.head, r.tail, Receive(r).1.tail, RecordLen(g.need), g.plan);
    QueueAfterCommit(r, v, g, written);
    var e := r.(data := d);
    v' := ReceivePops(e, v);
    SameReceive(r, e, v);
    TailInRange(e, v);
    NextIsAhead(e, v, g);
    HeadElsewhere(e, g.plan.next);
  }

  lemma QueueAfterCommit(r: Ring, v: View, g: Grant, written: nat)
    requires Holds(r, v) && GrantOn(r, g) && written <= g.need
    ensures Holds(r.(data := CommitBytes(r.data, g, written)), v)
  {
    hide Inv, CommitBytes, EnvelopeBytes, Zeros, RecordLen, Unread, Le32;
    CommittedBlock(r.data, g, written);
    FreeWritesKeepQueue(r.data, CommitBytes(r.data, g, written), r.head, r.tail, v);
  }

  /** Where the tail goes is decided by the oldest record. */
  lemma SameReceive(r: Ring, e: Ring, v: View)
    requires Holds(r, v) && Holds(e, v) && v.Queue() != []
    requires r.head == e.head && r.tail == e.tail && |r.data| == |e.data|
    ensures Receive(e) == (Some(v.Queue()[0]), e.(tail := Receive(r).1.tail))
  {
    hide Holds;
    TailFromQueue(r, v);
    TailFromQueue(e, v);
  }

  lemma TailFromQueue(r: Ring, v: View)
    requires Holds(r, v) && v.Queue() != []
    ensures Receive(r) == (Some(v.Queue()[0]),
                           r.(tail := TailAfter(|r.data|, if v.AtMarker() then 0 else r.tail,
                                                ENVELOPE_LEN + |v.Queue()[0].payload|)))
  {
    hide LenAt, RecordAt, Inv, RecordLen, RecordBytes, Le32, TailAfter;
    var v' := ReceivePops(r, v);
    EmptyIffCursorsMeet(r.data, r.head, r.tail, v);
    var w, t := v, r.tail;
    if v.AtMarker() {
      MarkerIsSkipped(r.data, r.head, r.tail, v);
      w, t := Straight(v.back), 0;
      EmptyIffCursorsMeet(r.data, r.head, 0, w);
    }
    FrontIsOldest(r.data, r.head, t, w);
    TailInRange(r, v);
    ReceiveSome(r);
  }

  lemma ReceiveSome(r: Ring)
    requires Receive(r).0.Some?
    ensures var at := if LenAt(r.data, r.tail) == SENTINEL then 0 else r.tail;
      Receive(r).1 == r.(tail := TailAfter(|r.data|, at, LenAt(r.data, at)))
  {
    hide LenAt, RecordAt, TailAfter;
  }

  /** The granted block ends short of where the consumer reads next. */
  lemma NextIsAhead(r: Ring, v: View, g: Grant)
    requires r.tail + ENVELOPE_LEN <= |r.data|
    requires Holds(r, v) && v.Queue() != []
    requires Places(|r.data|, r.head, r.tail, RecordLen(g.need), g.plan)
    ensures g.plan.next != r.tail && (LenAt(r.data, r.tail) == SENTINEL ==> g.plan.next != 0)
  {
    hide LenAt, RecordAt, Le32, Encode, RecordLen, RecordBytes;
    EmptyIffCursorsMeet(r.data, r.head, r.tail, v);
    if v.AtMarker() {
      assert g.plan.next == 0 ==> Unread(r.head, r.tail, r.tail);
    } else {
      FrontIsOldest(r.data, r.head, r.tail, v);
    }
  }

  /** A commit of only `written` bytes, whatever is queued: the queued records and then the short one
      are read back, and then the next peek stops the program exactly when the short record does not
      fill the reserved block. */
  lemma {:induction false} ShortCommit(r: Ring, v: View, g: Grant, written: nat)
    requires Holds(r, v) && GrantOn(r, g) && written <= g.need
    ensures var at := g.plan.at + ENVELOPE_LEN;
      var (out, rest) := Handed(Committed(r, g, written), |v.Queue()| + 1);
      && at + written <= |r.data|
      && out == v.Queue() + [Record(g.envelope, r.data[at..at + written])]
      && (PeekPanics(rest) <==> RecordLen(written) != RecordLen(g.need))
      && (rest.head == rest.tail <==> RecordLen(written) == RecordLen(g.need))
    decreases |v.Queue()|
  {
    hide Holds, CommitBytes, Le32, RecordLen, Receive, GrantOn, PeekPanics, Places;
    var q := v.Queue();
    if q == [] {
      DrainedCursors(r, v);
      DrainedShortCommit(r, v, g, written);
      HandedOnce(Committed(r, g, written), 0);
    } else {
      var v' := ReceivePops(r, v);
      ReceiveAdvances(r, v);
      ReceiveCommutes(r, v, g, written);
      ShortCommit(Receive(r).1, v', g, written);
      HandedOnce(Committed(r, g, written), |q|);
      assert q == [q[0]] + q[1..];
    }
  }

  lemma HandedOnce(r: Ring, n: nat)
    requires Receive(r).0.Some?
    ensures var (out, rest) := Handed(Receive(r).1, n);
      Handed(r, n + 1) == ([Receive(r).0.value] + out, rest)
    ensures Handed(r, 0) == ([], r)
    ensures Handed(r, 1) == ([Receive(r).0.value], Receive(r).1)
  {
    hide Receive;
    var r' := Receive(r).1;
    assert Handed(r', 0) == ([], r');
    assert [Receive(r).0.value] + [] == [Receive(r).0.value];
  }

  lemma DrainedCursors(r: Ring, v: View)
    requires Holds(r, v) && v.Queue() == []
    ensures r.head == r.tail
  {
    EmptyIffCursorsMeet(r.data, r.head, r.tail, v);
  }

  /** What the consumer's reads find in a short block: the marker if there is one, the record, and a
      zero length behind it. */
  lemma ShortBlock(r: Ring, v: View, g: Grant, written: nat, len: nat, short: nat)
    requires len == RecordLen(g.need) && short == RecordLen(written) && written <= g.need
    requires ENVELOPE_LEN + written <= short <= len && (short < len ==> short + ENVELOPE_LEN <= len)
    requires Holds(r, v) && r.head == r.tail
    requires Places(|r.data|, r.head, r.tail, len, g.plan)
    requires g.plan.skip ==> r.data[r.head..r.head + 4] == Le32(SENTINEL)
    ensures var d, at := CommitBytes(r.data, g, written), g.plan.at;
      var body := at + ENVELOPE_LEN;
      && |d| == |r.data| && body + written <= |d|
      && LenAt(d, at) == ENVELOPE_LEN + written
      && RecordAt(d, at, LenAt(d, at)) == Record(g.envelope, r.data[body..body + written])
      && (g.plan.skip ==> LenAt(d, r.head) == SENTINEL)
      && (short < len ==> LenAt(d, at + short) == 0)
  {
    hide Inv, CommitBytes, RecordBytes, EnvelopeBytes, RecordAt, Le32, FromLe32, RecordLen, Unread;
    var at := g.plan.at;
    var d := CommitBytes(r.data, g, written);
    var rec := Record(g.envelope, r.data[at + ENVELOPE_LEN..at + ENVELOPE_LEN + written]);
    RangeOf(r, v);
    CommittedBlock(r.data, g, written);
    ShortRecordIsWhole(d, at, len, rec);
    RecordReadsBack(d, at, rec);
    if g.plan.skip {
      SameSlice(r.data, d, r.head, r.head + 4);
      Le32RoundTrip(SENTINEL);
    }
    if short < len {
      ZeroLength(d, at + short);
    }
  }

  lemma ShortFits(need: nat, written: nat)
    requires written <= need
    ensures ENVELOPE_LEN + written <= RecordLen(written) <= RecordLen(need)
    ensures RecordLen(written) < RecordLen(need) ==> RecordLen(written) + ENVELOPE_LEN <= RecordLen(need)
  {
  }

  /** The cursor after a short record. */
  lemma ShortTail(capacity: nat, at: nat, total: nat, short: nat, len: nat)
    requires short == Align8(total) && 0 < short <= len && at + len <= capacity
    ensures TailAfter(capacity, at, total) == if at + short == capacity then 0 else at + short
  {
  }

  /** The front of a short block is the short record, whole; zeros follow. */
  lemma ShortRecordIsWhole(d: seq<Byte>, at: nat, len: nat, rec: Record)
    requires at + len <= |d| && RecordLen(|rec.payload|) <= len && len % 8 == 0
    requires d[at..at + len] == EnvelopeBytes(rec.envelope, |rec.payload|) + rec.payload
                                  + Zeros(len - ENVELOPE_LEN - |rec.payload|)
    ensures d[at..at + RecordLen(|rec.payload|)] == RecordBytes(rec)
    ensures forall i :: at + RecordLen(|rec.payload|) <= i < at + len ==> d[i] == 0
  {
    hide RecordLen, EnvelopeBytes;
    var n := RecordLen(|rec.payload|);
    var block := EnvelopeBytes(rec.envelope, |rec.payload|) + rec.payload + Zeros(len - ENVELOPE_LEN - |rec.payload|);
    forall i | 0 <= i < n
      ensures d[at + i] == RecordBytes(rec)[i]
    {
      assert d[at..at + len][i] == block[i];
    }
    SliceIs(d, at, RecordBytes(rec));
    forall i | at + n <= i < at + len
      ensures d[i] == 0
    {
      assert d[at..at + len][i - at] == block[i - at];
    }
  }

  lemma ZeroLength(d: seq<Byte>, at: nat)
    requires at + 4 <= |d|
    requires forall i :: at <= i < at + 4 ==> d[i] == 0
    ensures LenAt(d, at) == 0
  {
    var w := d[at..at + 4];
    assert w[0] == 0 && w[1] == 0 && w[2] == 0 && w[3] == 0;
  }
}
