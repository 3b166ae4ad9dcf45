/**
 An endpoint routes commands to a port by class and drains them in a fixed order of classes. With
 a codec that round-trips, commands are delivered in the order they were accepted.
 */
module Endpoint {
  import opened RingLayout
  import opened RingValue
  import Mailbox
  import opened Ports

  datatype Encoded = Encoded(cls: PortClass, rec: Record)

  datatype Codec<!Cmd> = Codec(encode: Cmd -> Option<Encoded>, decode: Record -> Option<Cmd>)

  /** The ports an endpoint was configured with, each behind the class it serves. */
  datatype PortSet = PortSet(lossless: Option<Ring>, coalesce: Option<Mailbox.Box>, besteffort: Option<Ring>)

  // ----- Submitting -----

  function SendRing(r: Ring, rec: Record, refusal: Outcome): (Ring, SendResult) {
    match Send(r, rec)
    case None => (r, Sent(refusal))
    case Some(r') => (r', Sent(Accepted))
  }

  function Submit<Cmd>(codec: Codec<Cmd>, e: PortSet, cmd: Cmd): (PortSet, SendResult) {
    match codec.encode(cmd)
    case None => (e, Refused)
    case Some(Encoded(cls, rec)) =>
      match cls
      case Lossless =>
        if e.lossless.None? then (e, Refused)
        else
          var (r, result) := SendRing(e.lossless.value, rec, WouldBlock);
          (e.(lossless := Some(r)), result)
      case BestEffort =>
        if e.besteffort.None? then (e, Refused)
        else
          var (r, result) := SendRing(e.besteffort.value, rec, Dropped);
          (e.(besteffort := Some(r)), result)
      case Coalesce =>
        if e.coalesce.None? then (e, Refused)
        else
          var (b, sent) := Mailbox.Send(e.coalesce.value, rec);
          (e.(coalesce := Some(b)),
           if sent.TooLarge? then Refused else Sent(if sent.Coalesced? then Coalesced else Accepted))
  }

  /** A command goes to the port of its class and no other. A full ring blocks a lossless command and
      drops a best-effort one, and keeps its records; the mailbox refuses only what it cannot hold; so does
      a class without a port, and a command without an encoding. */
  lemma SubmitAnswers<Cmd>(codec: Codec<Cmd>, e: PortSet, cmd: Cmd)
    ensures var (e', result) := Submit(codec, e, cmd);
      match codec.encode(cmd)
      case None => e' == e && result == Refused
      case Some(Encoded(Lossless, rec)) =>
        if e.lossless.None? then e' == e && result == Refused
        else if Send(e.lossless.value, rec).None? then e' == e && result == Sent(WouldBlock)
        else e' == e.(lossless := Send(e.lossless.value, rec)) && result == Sent(Accepted)
      case Some(Encoded(BestEffort, rec)) =>
        if e.besteffort.None? then e' == e && result == Refused
        else if Send(e.besteffort.value, rec).None? then e' == e && result == Sent(Dropped)
        else e' == e.(besteffort := Send(e.besteffort.value, rec)) && result == Sent(Accepted)
      case Some(Encoded(Coalesce, rec)) =>
        if e.coalesce.None? then e' == e && result == Refused
        else
          && e'.lossless == e.lossless && e'.besteffort == e.besteffort && e'.coalesce.Some?
          && (result == Refused <==> |rec.payload| > |e.coalesce.value.data|)
          && (result == Refused ==> e' == e)
          && (result.Sent? ==> result.outcome in {Accepted, Coalesced})
  {
    hide Send;
  }

  // ----- Draining -----

  /** The records a drain of a ring hands over, oldest first. */
  function TakeRecords(r: Ring, max: nat): (Ring, seq<Record>)
    decreases max
  {
    if max == 0 then (r, [])
    else
      var (got, r') := Receive(r);
      match got
      case None => (r', [])
      case Some(rec) =>
        var (r'', rest) := TakeRecords(r', max - 1);
        (r'', [rec] + rest)
  }

  function DecodeAll<Cmd>(codec: Codec<Cmd>, records: seq<Record>): (cmds: seq<Cmd>)
    ensures |cmds| <= |records|
    decreases |records|
  {
    if records == [] then []
    else
      match codec.decode(records[0])
      case None => DecodeAll(codec, records[1..])
      case Some(cmd) => [cmd] + DecodeAll(codec, records[1..])
  }

  function DrainRing<Cmd>(codec: Codec<Cmd>, r: Option<Ring>, max: nat): (Option<Ring>, seq<Cmd>) {
    if r.None? then (r, [])
    else
      var (r', records) := TakeRecords(r.value, max);
      (Some(r'), DecodeAll(codec, records))
  }

  function DrainBox<Cmd>(codec: Codec<Cmd>, b: Option<Mailbox.Box>, max: nat): (Option<Mailbox.Box>, seq<Cmd>) {
    if b.None? || max == 0 then (b, [])
    else
      var (b', got) := Mailbox.Take(b.value);
      (Some(b'), DecodeAll(codec, if got.Some? then [got.value] else []))
  }

  datatype Drained<Cmd> = Drained(lossless: seq<Cmd>, coalesce: seq<Cmd>, besteffort: seq<Cmd>) {
    /** What the callback sees. */
    function All(): seq<Cmd> { lossless + coalesce + besteffort }
  }

  lemma TakeRecordsBound(r: Ring, max: nat)
    ensures |TakeRecords(r, max).1| <= max
    decreases max
  {
    hide Receive;
    if max > 0 && Receive(r).0.Some? { TakeRecordsBound(Receive(r).1, max - 1); }
  }

  lemma DrainRingBound<Cmd>(codec: Codec<Cmd>, r: Option<Ring>, max: nat)
    ensures |DrainRing(codec, r, max).1| <= max
  {
    hide TakeRecords;
    if r.Some? { TakeRecordsBound(r.value, max); }
  }

  lemma DrainBoxBound<Cmd>(codec: Codec<Cmd>, b: Option<Mailbox.Box>, max: nat)
    ensures |DrainBox(codec, b, max).1| <= max
  {
    hide Mailbox.Take;
  }

  /** Lossless first, then the mailbox, then best effort, each with what is left of the limit; the
      limit counts decoded commands, and a class is not touched once it is used up. */
  function DrainCommands<Cmd>(codec: Codec<Cmd>, e: PortSet, max: nat): (PortSet, Drained<Cmd>) {
    DrainRingBound(codec, e.lossless, max);
    var (l, first) := DrainRing(codec, e.lossless, max);
    var e1 := e.(lossless := l);
    if |first| >= max then (e1, Drained(first, [], []))
    else
      DrainBoxBound(codec, e.coalesce, max - |first|);
      var (c, second) := DrainBox(codec, e.coalesce, max - |first|);
      var e2 := e1.(coalesce := c);
      if |first| + |second| >= max then (e2, Drained(first, second, []))
      else
        var (b, third) := DrainRing(codec, e.besteffort, max - |first| - |second|);
        (e2.(besteffort := b), Drained(first, second, third))
  }

  /** A drain delivers at most its limit, and touches a lower class only when the classes above it
      left room. */
  lemma DrainRespectsLimit<Cmd>(codec: Codec<Cmd>, e: PortSet, max: nat)
    ensures var (e', d) := DrainCommands(codec, e, max);
      && |d.All()| <= max
      && (e'.coalesce != e.coalesce || d.coalesce != [] ==> |d.lossless| < max)
      && (e'.besteffort != e.besteffort || d.besteffort != [] ==> |d.lossless| + |d.coalesce| < max)
  {
    hide DrainRing, DrainBox;
    var (l, first) := DrainRing(codec, e.lossless, max);
    DrainRingBound(codec, e.lossless, max);
    if |first| < max {
      DrainBoxBound(codec, e.coalesce, max - |first|);
      var (c, second) := DrainBox(codec, e.coalesce, max - |first|);
      if |first| + |second| < max {
        DrainRingBound(codec, e.besteffort, max - |first| - |second|);
      }
    }
  }

  // ----- Delivery over whole runs -----

  /** Every command the codec encodes comes back from the record. */
  ghost predicate RoundTrips<Cmd(!new)>(codec: Codec<Cmd>) {
    forall cmd: Cmd :: codec.encode(cmd).Some? ==> codec.decode(codec.encode(cmd).value.rec) == Some(cmd)
  }

  datatype Op<Cmd> = SubmitOp(cmd: Cmd) | DrainOp(max: nat)

  /** Commands a class of port accepted and delivered, in order. */
  datatype Log<Cmd> = Log(accepted: seq<Cmd>, delivered: seq<Cmd>)

  datatype Logs<Cmd> = Logs(lossless: Log<Cmd>, besteffort: Log<Cmd>)

  function Noted<Cmd>(codec: Codec<Cmd>, logs: Logs<Cmd>, cmd: Cmd, result: SendResult): Logs<Cmd> {
    if result != Sent(Accepted) || codec.encode(cmd).None? then logs
    else
      match codec.encode(cmd).value.cls
      case Lossless => logs.(lossless := logs.lossless.(accepted := logs.lossless.accepted + [cmd]))
      case BestEffort => logs.(besteffort := logs.besteffort.(accepted := logs.besteffort.accepted + [cmd]))
      case Coalesce => logs
  }

  function Delivered<Cmd>(logs: Logs<Cmd>, d: Drained<Cmd>): Logs<Cmd> {
    Logs(logs.lossless.(delivered := logs.lossless.delivered + d.lossless),
         logs.besteffort.(delivered := logs.besteffort.delivered + d.besteffort))
  }

  function Step<Cmd>(codec: Codec<Cmd>, e: PortSet, logs: Logs<Cmd>, op: Op<Cmd>): (PortSet, Logs<Cmd>) {
    match op
    case SubmitOp(cmd) =>
      var (e', result) := Submit(codec, e, cmd);
      (e', Noted(codec, logs, cmd, result))
    case DrainOp(max) =>
      var (e', d) := DrainCommands(codec, e, max);
      (e', Delivered(logs, d))
  }

  function Play<Cmd>(codec: Codec<Cmd>, e: PortSet, logs: Logs<Cmd>, ops: seq<Op<Cmd>>): (PortSet, Logs<Cmd>)
    decreases |ops|
  {
    if ops == [] then (e, logs)
    else
      var (e', logs') := Step(codec, e, logs, ops[0]);
      Play(codec, e', logs', ops[1..])
  }

  /** A ring port's log: accepted commands are the delivered ones and then the queued ones. */
  ghost predicate Kept<Cmd>(codec: Codec<Cmd>, r: Option<Ring>, v: View, log: Log<Cmd>) {
    if r.None? then log.accepted == log.delivered
    else Holds(r.value, v) && log.accepted == log.delivered + DecodeAll(codec, v.Queue())
  }

  lemma {:induction false} DecodeSplits<Cmd>(codec: Codec<Cmd>, a: seq<Record>, b: seq<Record>)
    ensures DecodeAll(codec, a + b) == DecodeAll(codec, a) + DecodeAll(codec, b)
    decreases |a|
  {
    if a == [] {
      assert a + b == b;
    } else {
      assert (a + b)[1..] == a[1..] + b;
      DecodeSplits(codec, a[1..], b);
    }
  }

  lemma {:induction false} TakesFromQueue(r: Ring, v: View, max: nat) returns (v': View)
    requires Holds(r, v)
    ensures Holds(TakeRecords(r, max).0, v')
    ensures v.Queue() == TakeRecords(r, max).1 + v'.Queue()
    decreases max
  {
    hide Holds, Receive;
    v' := v;
    if max > 0 {
      v' := ReceivePops(r, v);
      if v.Queue() != [] {
        v' := TakesFromQueue(Receive(r).1, v', max - 1);
      }
    }
  }

  lemma SendKeeps<Cmd(!new)>(codec: Codec<Cmd>, r: Ring, v: View, log: Log<Cmd>, cmd: Cmd, refusal: Outcome)
    returns (v': View)
    requires RoundTrips(codec) && codec.encode(cmd).Some? && refusal != Accepted
    requires Kept(codec, Some(r), v, log)
    ensures var (r', result) := SendRing(r, codec.encode(cmd).value.rec, refusal);
      Kept(codec, Some(r'), v', if result == Sent(Accepted) then log.(accepted := log.accepted + [cmd]) else log)
  {
    hide Holds, Send, DecodeAll;
    var rec := codec.encode(cmd).value.rec;
    v' := SendAppends(r, v, rec);
    DecodeSplits(codec, v.Queue(), [rec]);
    DecodeOne(codec, rec, cmd);
    var queued := DecodeAll(codec, v.Queue());
    assert log.delivered + (queued + [cmd]) == (log.delivered + queued) + [cmd];
  }

  lemma DecodeOne<Cmd>(codec: Codec<Cmd>, rec: Record, cmd: Cmd)
    requires codec.decode(rec) == Some(cmd)
    ensures DecodeAll(codec, [rec]) == [cmd]
  {
    assert DecodeAll(codec, [rec][1..]) == [];
  }

  lemma DrainKeeps<Cmd>(codec: Codec<Cmd>, r: Option<Ring>, v: View, log: Log<Cmd>, max: nat) returns (v': View)
    requires Kept(codec, r, v, log)
    ensures var (r', cmds) := DrainRing(codec, r, max);
      Kept(codec, r', v', log.(delivered := log.delivered + cmds))
  {
    hide Holds, TakeRecords, DecodeAll;
    v' := v;
    if r.Some? {
      v' := TakesFromQueue(r.value, v, max);
      var records := TakeRecords(r.value, max).1;
      DecodeSplits(codec, records, v'.Queue());
      assert log.delivered + (DecodeAll(codec, records) + DecodeAll(codec, v'.Queue()))
          == (log.delivered + DecodeAll(codec, records)) + DecodeAll(codec, v'.Queue());
    }
  }

  ghost predicate Consistent<Cmd>(codec: Codec<Cmd>, e: PortSet, vl: View, vb: View, logs: Logs<Cmd>) {
    Kept(codec, e.lossless, vl, logs.lossless) && Kept(codec, e.besteffort, vb, logs.besteffort)
  }

  lemma SubmitKeeps<Cmd(!new)>(codec: Codec<Cmd>, e: PortSet, vl: View, vb: View, logs: Logs<Cmd>, cmd: Cmd)
    returns (vl': View, vb': View)
    requires RoundTrips(codec) && Consistent(codec, e, vl, vb, logs)
    ensures var (e', logs') := Step(codec, e, logs, SubmitOp(cmd));
      Consistent(codec, e', vl', vb', logs')
  {
    hide Kept, RoundTrips, SendRing, Mailbox.Send;
    vl', vb' := vl, vb;
    if codec.encode(cmd).Some? {
      var cls := codec.encode(cmd).value.cls;
      if cls == Lossless && e.lossless.Some? {
        vl' := SendKeeps(codec, e.lossless.value, vl, logs.lossless, cmd, WouldBlock);
      } else if cls == BestEffort && e.besteffort.Some? {
        vb' := SendKeeps(codec, e.besteffort.value, vb, logs.besteffort, cmd, Dropped);
      }
    }
  }

  lemma DrainOpKeeps<Cmd(!new)>(codec: Codec<Cmd>, e: PortSet, vl: View, vb: View, logs: Logs<Cmd>, max: nat)
    returns (vl': View, vb': View)
    requires Consistent(codec, e, vl, vb, logs)
    ensures var (e', logs') := Step(codec, e, logs, DrainOp(max));
      Consistent(codec, e', vl', vb', logs')
  {
    hide Kept, DrainRing, DrainBox;
    vb' := vb;
    vl' := DrainKeeps(codec, e.lossless, vl, logs.lossless, max);
    DrainRingBound(codec, e.lossless, max);
    var first := DrainRing(codec, e.lossless, max).1;
    NothingMore(codec, e.besteffort, vb, logs.besteffort);
    if |first| < max {
      DrainBoxBound(codec, e.coalesce, max - |first|);
      var second := DrainBox(codec, e.coalesce, max - |first|).1;
      if |first| + |second| < max {
        vb' := DrainKeeps(codec, e.besteffort, vb, logs.besteffort, max - |first| - |second|);
      }
    }
  }

  lemma NothingMore<Cmd>(codec: Codec<Cmd>, r: Option<Ring>, v: View, log: Log<Cmd>)
    requires Kept(codec, r, v, log)
    ensures Kept(codec, r, v, log.(delivered := log.delivered + []))
  {
    assert log.delivered + [] == log.delivered;
  }

  lemma {:induction false} PlayKeeps<Cmd(!new)>(
    codec: Codec<Cmd>, e: PortSet, vl: View, vb: View, logs: Logs<Cmd>, ops: seq<Op<Cmd>>)
    returns (vl': View, vb': View)
    requires RoundTrips(codec) && Consistent(codec, e, vl, vb, logs)
    ensures var (e', logs') := Play(codec, e, logs, ops);
      Consistent(codec, e', vl', vb', logs')
    decreases |ops|
  {
    hide Consistent, RoundTrips, Step;
    vl', vb' := vl, vb;
    if ops != [] {
      if ops[0].SubmitOp? {
        vl', vb' := SubmitKeeps(codec, e, vl, vb, logs, ops[0].cmd);
      } else {
        vl', vb' := DrainOpKeeps(codec, e, vl, vb, logs, ops[0].max);
      }
      var (e1, logs1) := Step(codec, e, logs, ops[0]);
      vl', vb' := PlayKeeps(codec, e1, vl', vb', logs1, ops[1..]);
    }
  }

  ghost predicate NewRing(r: Option<Ring>) {
    r.Some? ==> exists capacity: nat :: CapacityOk(capacity) && r.value == New(capacity)
  }

  /** What is queued in a ring port, decoded. */
  ghost function Queued<Cmd>(codec: Codec<Cmd>, r: Option<Ring>): seq<Cmd> {
    if r.None? then [] else DecodeAll(codec, Drain(r.value, |r.value.data|))
  }

  /** From new ports, over any run of submits and drains, a ring port's accepted commands are
      exactly those it has delivered followed by those still in its bytes, in order. */
  lemma DeliveredInOrder<Cmd(!new)>(codec: Codec<Cmd>, e: PortSet, ops: seq<Op<Cmd>>)
    requires RoundTrips(codec) && NewRing(e.lossless) && NewRing(e.besteffort)
    ensures var (e', logs) := Play(codec, e, Logs(Log([], []), Log([], [])), ops);
      && logs.lossless.accepted == logs.lossless.delivered + Queued(codec, e'.lossless)
      && logs.besteffort.accepted == logs.besteffort.delivered + Queued(codec, e'.besteffort)
  {
    hide Play, RoundTrips, DecodeAll, Holds, Drain, New;
    var logs0: Logs<Cmd> := Logs(Log([], []), Log([], []));
    NewIsKept(codec, e.lossless);
    NewIsKept(codec, e.besteffort);
    var vl, vb := PlayKeeps(codec, e, Straight([]), Straight([]), logs0, ops);
    var (e', logs) := Play(codec, e, logs0, ops);
    KeptIsQueued(codec, e'.lossless, vl, logs.lossless);
    KeptIsQueued(codec, e'.besteffort, vb, logs.besteffort);
  }

  lemma NewIsKept<Cmd>(codec: Codec<Cmd>, r: Option<Ring>)
    requires NewRing(r)
    ensures Kept(codec, r, Straight([]), Log([], []))
  {
    hide Holds;
    if r.Some? {
      var capacity: nat :| CapacityOk(capacity) && r.value == New(capacity);
      NewIsEmpty(capacity);
    }
  }

  lemma KeptIsQueued<Cmd>(codec: Codec<Cmd>, r: Option<Ring>, v: View, log: Log<Cmd>)
    requires Kept(codec, r, v, log)
    ensures log.accepted == log.delivered + Queued(codec, r)
  {
    hide Holds, Drain, DecodeAll;
    if r.Some? {
      QueueBound(r.value, v);
      DrainIsQueue(r.value, v, |r.value.data|);
    } else {
      assert log.delivered + [] == log.delivered;
    }
  }

  // ----- The worker's side -----

  /** The endpoint as the worker holds it: draining runs the ports' loops in place. */
  class WorkerEndpoint<Cmd> {
    const codec: Codec<Cmd>
    var ports: PortSet

    constructor (codec: Codec<Cmd>, ports: PortSet)
      ensures this.codec == codec && this.ports == ports
    {
      this.codec, this.ports := codec, ports;
    }

    /** Peeks, decodes and pops until the limit, an empty ring, or a full count. */
    static method DrainRingPort(codec: Codec<Cmd>, port: Option<Ring>, max: nat)
      returns (after: Option<Ring>, decoded: seq<Cmd>)
      ensures (after, decoded) == DrainRing(codec, port, max)
    {
      hide Receive;
      decoded := [];
      if port.None? { return port, []; }
      var ring := port.value;
      var taken: nat := 0;
      ghost var records := [];
      var more := true;
      assert records + TakeRecords(ring, max).1 == TakeRecords(ring, max).1;
      while more && taken < max
        invariant taken <= max && decoded == DecodeAll(codec, records)
        invariant more ==>
          TakeRecords(port.value, max) == (TakeRecords(ring, max - taken).0, records + TakeRecords(ring, max - taken).1)
        invariant !more ==> TakeRecords(port.value, max) == (ring, records)
        decreases more, max - taken
      {
        var (got, ring') := Receive(ring);
        if got.None? {
          assert records + [] == records;
          more := false;
        } else {
          DecodeSplits(codec, records, [got.value]);
          TakeNext(ring, max - taken, records);
          records := records + [got.value];
          var cmd := codec.decode(got.value);
          if cmd.Some? {
            DecodeOne(codec, got.value, cmd.value);
            decoded := decoded + [cmd.value];
          } else {
            DecodeNone(codec, got.value);
            assert decoded + [] == decoded;
          }
          taken := taken + 1;
        }
        ring := ring';
      }
      if more { assert records + [] == records; }
      after := Some(ring);
    }

    method DrainPorts(max: nat) returns (seen: seq<Cmd>)
      modifies this
      ensures var (e', d) := DrainCommands(codec, old(ports), max);
        ports == e' && seen == d.All()
      ensures |seen| <= max
    {
      hide DrainRing, DrainBox;
      DrainRespectsLimit(codec, ports, max);
      var drained := 0;
      var l, first := DrainRingPort(codec, ports.lossless, max);
      DrainRingBound(codec, ports.lossless, max);
      ports := ports.(lossless := l);
      drained := drained + |first|;
      seen := first;
      assert first + [] + [] == first;
      if drained >= max { return; }
      DrainBoxBound(codec, ports.coalesce, max - drained);
      var (c, second) := DrainBox(codec, ports.coalesce, max - drained);
      ports := ports.(coalesce := c);
      drained := drained + |second|;
      seen := first + second;
      assert first + second + [] == first + second;
      if drained >= max { return; }
      var b, third := DrainRingPort(codec, ports.besteffort, max - drained);
      ports := ports.(besteffort := b);
      seen := first + second + third;
    }
  }

  lemma TakeNext(r: Ring, max: nat, before: seq<Record>)
    requires max > 0 && Receive(r).0.Some?
    ensures var (got, r') := Receive(r);
      && TakeRecords(r, max).0 == TakeRecords(r', max - 1).0
      && before + TakeRecords(r, max).1 == (before + [got.value]) + TakeRecords(r', max - 1).1
  {
    hide Receive;
  }

  lemma DecodeNone<Cmd>(codec: Codec<Cmd>, rec: Record)
    requires codec.decode(rec).None?
    ensures DecodeAll(codec, [rec]) == []
  {
    assert DecodeAll(codec, [rec][1..]) == [];
  }
}
