/**
 The frame protocol cannot get stuck: in every reachable state with frames still to deliver some side has
 a call that gets on, no call ever loses ground, and so from every state all frames can be delivered, in a
 number of calls that get on known beforehand.
 */
module FrameProgress {
  import opened Bytes
  import opened FrameProtocol
  import V = RingValue
  import I = IndexRing
  import S = SlotPool

  /** Calls that have got on: four for each frame on either side, and those of the frames under way. */
  function Progress(s: State): int {
    4 * s.frame + 4 * |s.seen|
    + (match s.producer case Acquire => 0 case WriteFrame(_) => 1 case PushReady(_) => 2 case PushEvent(_) => 3)
    + (match s.consumer case PopReady => 0 case PopEvent(_) => 1 case ReadSlot(_, _, _) => 2 case Release(_) => -1)
  }

  predicate AllDelivered(s: State, frames: nat) {
    s.frame == |s.seen| == frames && s.producer.Acquire? && s.consumer.PopReady?
  }

  // ----- Every call gets on or waits -----

  /** The engine past its acquire always gets on; at its acquire it waits for a free slot. */
  lemma EngineGoes(n: nat, capacity: nat, frames: nat, s: State, g: Ghosts)
    requires ConfigOk(n, capacity, frames) && Inv(n, capacity, frames, s, g)
    ensures var s' := EngineStep(s, frames);
      if s.producer.Acquire? && (s.frame == frames || g.free == []) then s' == s
      else Progress(s') == Progress(s) + 1
  {
    hide SlotsOk, V.Holds, V.Send, Matched, LogOk, EventsTight, I.PushTo, I.PopFrom, EventRecord, Le32;
    var g' := StepKeepsInv(n, capacity, frames, s, g, Engine);
    if s.producer.Acquire? && s.frame < frames { AcquireGoes(n, s, g, frames); }
  }

  lemma AcquireGoes(n: nat, s: State, g: Ghosts, frames: nat)
    requires SlotsOk(n, s, g) && s.producer.Acquire? && s.frame < frames
    ensures g.free == [] ==> EngineStep(s, frames) == s
    ensures g.free != [] ==> Progress(EngineStep(s, frames)) == Progress(s) + 1
  {
    hide SlotsOk, EngineStep;
    AcquireSlots(n, s, g, frames);
  }

  /** The consumer waits only for a ready slot, and, holding one, for its event. */
  lemma DrainerGoes(n: nat, capacity: nat, frames: nat, s: State, g: Ghosts)
    requires ConfigOk(n, capacity, frames) && Inv(n, capacity, frames, s, g)
    ensures var s' := DrainerStep(s);
      if (s.consumer.PopReady? && g.ready == []) || (s.consumer.PopEvent? && g.view.Queue() == []) then s' == s
      else Progress(s') == Progress(s) + 1
  {
    hide SlotsOk, V.Holds, V.Receive, Matched, LogOk, EventsTight, I.PushTo, I.PopFrom, Le32, FromLe32;
    var g' := StepKeepsInv(n, capacity, frames, s, g, Drainer);
    match s.consumer
    case PopReady => PopReadyGoes(n, s, g);
    case PopEvent(x) =>
      var v' := V.ReceivePops(s.events, g.view);
      if g.view.Queue() == [] { NoEventYet(s, x); }
    case ReadSlot(_, _, _) =>
    case Release(_) =>
  }

  lemma PopReadyGoes(n: nat, s: State, g: Ghosts)
    requires SlotsOk(n, s, g) && s.consumer.PopReady?
    ensures g.ready == [] ==> DrainerStep(s) == s
    ensures g.ready != [] ==> Progress(DrainerStep(s)) == Progress(s) + 1
  {
    hide SlotsOk, DrainerStep;
    PopReadySlots(n, s, g);
  }

  // ----- No deadlock -----

  /** Where both sides wait, everything has been delivered. */
  lemma NoDeadlock(n: nat, capacity: nat, frames: nat, s: State, g: Ghosts)
    requires ConfigOk(n, capacity, frames) && Inv(n, capacity, frames, s, g)
    requires s.producer.Acquire? && (s.frame == frames || g.free == [])
    requires (s.consumer.PopReady? && g.ready == []) || (s.consumer.PopEvent? && g.view.Queue() == [])
    ensures AllDelivered(s, frames)
  {
    hide V.Holds, LogOk, EventsTight, S.PoolInv, EventRecord, Le32;
    if g.free == [] { S.PartitionCounts(n, g.free, InHand(s.producer), g.ready, Held(s.consumer)); }
  }

  /** No call ever loses ground, and until all is delivered some side's next call gains it. */
  lemma SomeoneGoes(n: nat, capacity: nat, frames: nat, turns: seq<Turn>) returns (t: Turn)
    requires ConfigOk(n, capacity, frames)
    ensures var s := Run(n, capacity, frames, turns);
      && (forall u :: Step(s, frames, u) == s || Progress(Step(s, frames, u)) == Progress(s) + 1)
      && (AllDelivered(s, frames) || Progress(Step(s, frames, t)) == Progress(s) + 1)
      && Progress(s) <= 8 * frames
  {
    hide Run, Inv, EngineStep, DrainerStep, AllDelivered;
    var s := Run(n, capacity, frames, turns);
    var g := RunKeepsInv(n, capacity, frames, turns);
    EngineGoes(n, capacity, frames, s, g);
    DrainerGoes(n, capacity, frames, s, g);
    ProgressBounded(n, capacity, frames, s, g);
    var waits := s.producer.Acquire? && (s.frame == frames || g.free == []);
    t := if waits then Drainer else Engine;
    forall u ensures Step(s, frames, u) == s || Progress(Step(s, frames, u)) == Progress(s) + 1 {
      match u { case Engine => case Drainer => }
    }
    if waits && ((s.consumer.PopReady? && g.ready == []) || (s.consumer.PopEvent? && g.view.Queue() == [])) {
      NoDeadlock(n, capacity, frames, s, g);
    }
  }

  lemma ProgressBounded(n: nat, capacity: nat, frames: nat, s: State, g: Ghosts)
    requires Inv(n, capacity, frames, s, g)
    ensures Progress(s) <= 8 * frames
  {
    hide SlotsOk, V.Holds, LogOk, EventsTight, EventRecord, Le32;
  }

  /** From every state of every run, with the right turns, all frames are delivered, each in the order and
      with the contents every run guarantees. */
  lemma {:induction false} EveryFrameArrives(n: nat, capacity: nat, frames: nat, turns: seq<Turn>)
    returns (more: seq<Turn>)
    requires ConfigOk(n, capacity, frames)
    ensures var s := Run(n, capacity, frames, turns + more);
      && AllDelivered(s, frames) && |s.seen| == frames
      && |more| == 8 * frames - Progress(Run(n, capacity, frames, turns))
    decreases 8 * frames - Progress(Run(n, capacity, frames, turns))
  {
    hide Run, Progress;
    var s := Run(n, capacity, frames, turns);
    var t := SomeoneGoes(n, capacity, frames, turns);
    if AllDelivered(s, frames) {
      more := [];
      assert turns + more == turns;
      AtTheEnd(s, frames);
    } else {
      OneTurn(n, capacity, frames, turns, t);
      var t' := SomeoneGoes(n, capacity, frames, turns + [t]);
      var rest := EveryFrameArrives(n, capacity, frames, turns + [t]);
      more := [t] + rest;
      assert turns + more == turns + [t] + rest;
    }
  }

  lemma AtTheEnd(s: State, frames: nat)
    requires AllDelivered(s, frames)
    ensures Progress(s) == 8 * frames
  {
  }

  lemma OneTurn(n: nat, capacity: nat, frames: nat, turns: seq<Turn>, t: Turn)
    ensures Run(n, capacity, frames, turns + [t]) == Step(Run(n, capacity, frames, turns), frames, t)
  {
    hide Step;
    assert (turns + [t])[..|turns|] == turns;
  }
}
