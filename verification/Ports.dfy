/**
 Ports put a delivery class and outcome counters on a ring or a mailbox. A ring port's accepted
 records are those it has delivered followed by those still queued.
 */
module Ports {
  import opened Bytes
  import opened RingLayout
  import opened MsgRing
  import Mailbox

  datatype PortClass = Lossless | BestEffort | Coalesce

  datatype Outcome = Accepted | Coalesced | Dropped | WouldBlock | Closed

  /** A send's outcome, or the error of a class the backend does not support or a payload the
      mailbox cannot hold. */
  datatype SendResult = Sent(outcome: Outcome) | Refused

  datatype Metrics = Metrics(accepted: nat, coalesced: nat, dropped: nat, wouldBlock: nat)

  /** The totals the wrapping counters stand for. */
  function Counted(m: Metrics, outcome: Outcome): Metrics {
    match outcome
    case Accepted => m.(accepted := m.accepted + 1)
    case Coalesced => m.(coalesced := m.coalesced + 1)
    case Dropped => m.(dropped := m.dropped + 1)
    case WouldBlock => m.(wouldBlock := m.wouldBlock + 1)
    case Closed => m
  }

  function Modular(m: Metrics): Metrics {
    Metrics(m.accepted % U32_LIMIT, m.coalesced % U32_LIMIT, m.dropped % U32_LIMIT, m.wouldBlock % U32_LIMIT)
  }

  /** One outcome counted on the wrapping counters. */
  function Tick(m: Metrics, outcome: Outcome): Metrics {
    match outcome
    case Accepted => m.(accepted := (m.accepted + 1) % U32_LIMIT)
    case Coalesced => m.(coalesced := (m.coalesced + 1) % U32_LIMIT)
    case Dropped => m.(dropped := (m.dropped + 1) % U32_LIMIT)
    case WouldBlock => m.(wouldBlock := (m.wouldBlock + 1) % U32_LIMIT)
    case Closed => m
  }

  lemma TickCounts(m: Metrics, outcome: Outcome)
    ensures Tick(Modular(m), outcome) == Modular(Counted(m, outcome))
  {
  }

  /** Totals and wrapping counters after a history of outcomes. */
  function Totals(outcomes: seq<Outcome>): Metrics
    decreases |outcomes|
  {
    if outcomes == [] then Metrics(0, 0, 0, 0)
    else Counted(Totals(outcomes[..|outcomes| - 1]), outcomes[|outcomes| - 1])
  }

  function Counters(outcomes: seq<Outcome>): Metrics
    decreases |outcomes|
  {
    if outcomes == [] then Metrics(0, 0, 0, 0)
    else Tick(Counters(outcomes[..|outcomes| - 1]), outcomes[|outcomes| - 1])
  }

  /** Over any history each counter is, modulo 2^32, how often its own outcome occurred; a closed port
      counts nowhere. */
  lemma {:induction false} CountersCount(outcomes: seq<Outcome>)
    ensures var all := multiset(outcomes);
      && Totals(outcomes) == Metrics(all[Accepted], all[Coalesced], all[Dropped], all[WouldBlock])
      && Counters(outcomes) == Modular(Totals(outcomes))
    decreases |outcomes|
  {
    hide Counted, Tick, Modular;
    if outcomes == [] {
      NothingCounted();
    } else {
      var last := |outcomes| - 1;
      assert outcomes == outcomes[..last] + [outcomes[last]];
      CountersCount(outcomes[..last]);
      TickCounts(Totals(outcomes[..last]), outcomes[last]);
      CountsOne(multiset(outcomes[..last]), outcomes[last]);
    }
  }

  lemma NothingCounted()
    ensures Modular(Metrics(0, 0, 0, 0)) == Metrics(0, 0, 0, 0)
  {
  }

  lemma CountsOne(all: multiset<Outcome>, o: Outcome)
    ensures var more := all + multiset{o};
      Counted(Metrics(all[Accepted], all[Coalesced], all[Dropped], all[WouldBlock]), o)
      == Metrics(more[Accepted], more[Coalesced], more[Dropped], more[WouldBlock])
  {
  }

  /** Reserve, copy, commit the full length. */
  method ReserveAndCommit(ring: MsgRing, envelope: Envelope, payload: seq<Byte>) returns (ok: bool)
    requires ring.Valid()
    modifies ring`head, ring`view, ring.data
    ensures ring.Valid()
    ensures ring.Queue() == if ok then old(ring.Queue()) + [Record(envelope, payload)] else old(ring.Queue())
    ensures !ok <==>
      (RecordLen(|payload|) >= ring.capacity
       || forall p :: !Places(ring.capacity, old(ring.head), ring.tail, RecordLen(|payload|), p))
  {
    hide RecordLen, Places;
    var grant := ring.TryReserveWith(envelope, |payload|);
    if grant.None? { return false; }
    ring.WritePayload(grant.value, payload);
    var _ := ring.Commit(grant.value, |payload|);
    ok := true;
  }

  class RingPort {
    const cls: PortClass
    const ring: MsgRing
    var metrics: Metrics
    ghost var totals: Metrics
    ghost var accepted: seq<Record>
    ghost var delivered: seq<Record>

    /** Every accepted record is delivered or queued, in order, and the counters are the totals. */
    ghost predicate Valid()
      reads this, ring, ring.data
    {
      && ring.Valid()
      && accepted == delivered + ring.Queue()
      && metrics == Modular(totals)
    }

    constructor (cls: PortClass, ring: MsgRing)
      requires ring.Valid() && ring.Queue() == []
      ensures Valid() && this.cls == cls && this.ring == ring
      ensures accepted == delivered == [] && totals == Metrics(0, 0, 0, 0)
    {
      this.cls, this.ring := cls, ring;
      metrics, totals := Metrics(0, 0, 0, 0), Metrics(0, 0, 0, 0);
      accepted, delivered := [], [];
    }

    /** Accepted appends the record; otherwise the class says whether it blocks or is dropped, and
        the queue is as it was. The coalescing class is an error here and counts nothing. */
    method TrySend(envelope: Envelope, payload: seq<Byte>) returns (result: SendResult)
      requires Valid()
      modifies this`metrics, this`totals, this`accepted, ring`head, ring`view, ring.data
      ensures Valid() && delivered == old(delivered)
      ensures result == Refused <==> cls == Coalesce
      ensures result.Sent? ==> result.outcome in {Accepted, if cls == Lossless then WouldBlock else Dropped}
      ensures result == Sent(Accepted) ==> accepted == old(accepted) + [Record(envelope, payload)]
      ensures result != Sent(Accepted) ==> accepted == old(accepted) && ring.Queue() == old(ring.Queue())
      ensures result.Sent? && result.outcome != Accepted <==>
        cls != Coalesce
        && (RecordLen(|payload|) >= ring.capacity
            || forall p :: !Places(ring.capacity, old(ring.head), ring.tail, RecordLen(|payload|), p))
      ensures totals == if result.Sent? then Counted(old(totals), result.outcome) else old(totals)
    {
      hide RecordLen, Places, Modular, Counted;
      if cls == Coalesce { return Refused; }
      var ok := ReserveAndCommit(ring, envelope, payload);
      var outcome := if ok then Accepted else if cls == Lossless then WouldBlock else Dropped;
      if ok { accepted := accepted + [Record(envelope, payload)]; }
      TickCounts(totals, outcome);
      metrics := Tick(metrics, outcome);
      totals := Counted(totals, outcome);
      result := Sent(outcome);
    }

    /** Peeks at the oldest record and pops it. */
    method DrainOne() returns (record: Option<Record>)
      requires Valid()
      modifies this`delivered, ring`tail, ring`meta, ring`view
      ensures Valid() && accepted == old(accepted)
      ensures record == if old(ring.Queue()) == [] then None else Some(old(ring.Queue())[0])
      ensures record.None? ==> delivered == old(delivered) && ring.Queue() == []
      ensures record.Some? ==> delivered == old(delivered) + [record.value] && ring.Queue() == old(ring.Queue())[1..]
    {
      hide Modular;
      var seen := ring.ConsumerPeek();
      if seen.Empty? { return None; }
      ghost var queue := ring.Queue();
      var _ := ring.ConsumerPopAdvance();
      HeadMovesOver(accepted, delivered, queue);
      delivered := delivered + [seen.record];
      record := Some(seen.record);
    }

    /** Hands over the oldest records, at most `max` of them and as many as there are. */
    method DrainRecords(max: nat) returns (records: seq<Record>)
      requires Valid()
      modifies this`delivered, ring`tail, ring`meta, ring`view
      ensures Valid() && accepted == old(accepted)
      ensures delivered == old(delivered) + records
      ensures old(ring.Queue()) == records + ring.Queue()
      ensures |records| == if max < |old(ring.Queue())| then max else |old(ring.Queue())|
    {
      hide Modular;
      records := [];
      ghost var before := ring.Queue();
      while |records| < max
        invariant Valid() && |records| <= max && accepted == old(accepted)
        invariant before == records + ring.Queue()
        invariant delivered == old(delivered) + records
      {
        ghost var queue := ring.Queue();
        var record := DrainOne();
        if record.None? { break; }
        HeadMovesOver(before, records, queue);
        records := records + [record.value];
      }
    }
  }

  /** Moving the head of a queue to the end of what was taken from it. */
  lemma HeadMovesOver<T>(all: seq<T>, taken: seq<T>, queue: seq<T>)
    requires queue != [] && all == taken + queue
    ensures all == (taken + [queue[0]]) + queue[1..]
  {
  }

  /** A mailbox behind a port: sends coalesce, a drain of any positive size takes the newest. */
  class MailboxPort {
    const mailbox: Mailbox.SharedMailbox
    var metrics: Metrics
    ghost var totals: Metrics

    ghost predicate Valid()
      reads this, mailbox, mailbox.data
    {
      mailbox.Valid() && metrics == Modular(totals)
    }

    constructor (mailbox: Mailbox.SharedMailbox)
      requires mailbox.Valid()
      ensures Valid() && this.mailbox == mailbox && totals == Metrics(0, 0, 0, 0)
    {
      this.mailbox := mailbox;
      metrics, totals := Metrics(0, 0, 0, 0), Metrics(0, 0, 0, 0);
    }

    method TrySend(cls: PortClass, envelope: Envelope, payload: seq<Byte>) returns (result: SendResult)
      requires Valid()
      modifies this, mailbox, mailbox.data
      ensures Valid()
      ensures result == Refused <==> cls != Coalesce || |payload| > mailbox.data.Length
      ensures result == Refused ==> mailbox.slot == old(mailbox.slot) && totals == old(totals)
      ensures result.Sent? ==>
        && mailbox.slot == Mailbox.SlotSend(old(mailbox.slot), Record(envelope, payload)).0
        && result.outcome == (if (old(mailbox.slot.unread) + 1) % U32_LIMIT > 1 then Coalesced else Accepted)
        && totals == Counted(old(totals), result.outcome)
    {
      hide Modular, Counted, Mailbox.Refines, Mailbox.Send;
      if cls != Coalesce { return Refused; }
      Mailbox.SendRefines(mailbox.Value(), mailbox.slot, Record(envelope, payload));
      var sent := mailbox.TrySend(payload, Some(envelope));
      if sent.TooLarge? { return Refused; }
      var outcome := if sent.Coalesced? then Coalesced else Accepted;
      TickCounts(totals, outcome);
      metrics := Tick(metrics, outcome);
      totals := Counted(totals, outcome);
      result := Sent(outcome);
    }

    method DrainRecords(max: nat) returns (records: seq<Record>)
      requires Valid()
      modifies mailbox
      ensures Valid()
      ensures max == 0 ==> records == [] && mailbox.slot == old(mailbox.slot)
      ensures max > 0 ==>
        var (slot', out) := Mailbox.SlotTake(old(mailbox.slot));
        mailbox.slot == slot' && records == if out.Some? then [out.value] else []
    {
      records := [];
      if max == 0 { return; }
      var out := mailbox.TakeLatest();
      if out.Some? { records := [out.value]; }
    }
  }
}
