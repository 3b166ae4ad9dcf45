/**
 In which order intents are attempted: over every run, an intent sent back is the next one tried, and
 any other is the oldest of its line with every line above it empty.
 */
module AttemptOrder {
  import opened RingLayout
  import opened Scheduler

  // ----- The attempts of a run -----

  /** One turn of the loop: the queues as it found them, the job it tried, and whether that was sent
      back. */
  datatype Tried = Tried(queues: Queues, job: Job, back: bool)

  function TurnLog(s: State, services: nat -> Outcome, budget: nat): seq<Tried>
    decreases budget
  {
    if budget == 0 || Pop(s.queues).1.None? then []
    else
      var (queues, job) := Pop(s.queues);
      var s' := Attempt(s.(queues := queues), job.value, services);
      [Tried(s.queues, job.value, s'.done == s.done)] + TurnLog(s', services, budget - 1)
  }

  /** Every attempt of a run, in order. */
  function Log(s: State, services: nat -> Outcome, events: seq<Event>): seq<Tried>
    decreases |events|
  {
    if events == [] then []
    else
      (if events[0].Turn? then TurnLog(s, services, events[0].budget) else [])
      + Log(Happen(s, services, events[0]), services, events[1..])
  }

  /** The attempt that may follow `prev`: the job just sent back, whatever has arrived since, or else
      the oldest job of its line with the lines above it empty. */
  predicate Follows(prev: Option<Tried>, t: Tried) {
    if prev.Some? && prev.value.back then t.job == prev.value.job
    else
      match t.job.priority
      case P0 => t.queues.p0 != [] && t.job == t.queues.p0[0]
      case P1 => t.queues.p0 == [] && t.queues.p1 != [] && t.job == t.queues.p1[0]
      case P2 => t.queues.p0 == [] && t.queues.p1 == [] && t.queues.p2 != [] && t.job == t.queues.p2[0]
  }

  function Before(prev: Option<Tried>, log: seq<Tried>, i: nat): Option<Tried>
    requires i <= |log|
  {
    if i == 0 then prev else Some(log[i - 1])
  }

  ghost predicate Ordered(prev: Option<Tried>, log: seq<Tried>) {
    forall i :: 0 <= i < |log| ==> Follows(Before(prev, log, i), log[i])
  }

  /** The job awaiting a retry after an attempt. */
  function Awaiting(prev: Option<Tried>): Option<Job> {
    if prev.Some? && prev.value.back then Some(prev.value.job) else None
  }

  lemma OrderedJoins(prev: Option<Tried>, a: seq<Tried>, b: seq<Tried>)
    requires Ordered(prev, a) && Ordered(Before(prev, a, |a|), b)
    ensures Ordered(prev, a + b) && Before(prev, a + b, |a + b|) == Before(Before(prev, a, |a|), b, |b|)
  {
    hide Follows;
    var mid := Before(prev, a, |a|);
    forall i | 0 <= i < |a + b| ensures Follows(Before(prev, a + b, i), (a + b)[i]) {
      if i < |a| {
        assert Follows(Before(prev, a, i), a[i]);
      } else {
        assert Follows(Before(mid, b, i - |a|), b[i - |a|]);
      }
    }
  }

  // ----- The order is kept -----

  /** The job a turn pops may follow what was tried before it. */
  lemma PoppedFollows(s: State, prev: Option<Tried>, q0: seq<Job>, back: bool)
    requires Lined(s.queues, Awaiting(prev), q0) && Pop(s.queues).1.Some?
    ensures Follows(prev, Tried(s.queues, Pop(s.queues).1.value, back))
  {
    hide Pop;
    PopIsHead(s.queues, Awaiting(prev), q0);
    PopTakes(s.queues);
  }

  /** What is popped heads one of the queues. */
  lemma PopTakes(q: Queues)
    requires Pop(q).1.Some?
    ensures var job := Pop(q).1.value;
      if q.p0 != [] then job == q.p0[0] else if q.p1 != [] then job == q.p1[0] else q.p2 != [] && job == q.p2[0]
  {
  }

  /** After an attempt the lines stand behind the job sent back, or behind none. */
  lemma AttemptLines(s: State, prev: Option<Tried>, q0: seq<Job>, services: nat -> Outcome)
    returns (t: Tried, q0': seq<Job>)
    requires Lined(s.queues, Awaiting(prev), q0) && Pop(s.queues).1.Some?
    ensures var (q, job) := Pop(s.queues);
      var s' := Attempt(s.(queues := q), job.value, services);
      && t == Tried(s.queues, job.value, s'.done == s.done)
      && Follows(prev, t) && Lined(s'.queues, Awaiting(Some(t)), q0')
  {
    hide Attempt, Lined, Line, Pop, Follows;
    var (q, next) := Pop(s.queues);
    var job := next.value;
    var s1 := s.(queues := q);
    var s' := Attempt(s1, job, services);
    t := Tried(s.queues, job, s'.done == s.done);
    PopIsHead(s.queues, Awaiting(prev), q0);
    q0' := if Awaiting(prev).None? && job.priority == P0 then q0[1..] else q0;
    PoppedFollows(s, prev, q0, t.back);
    RetryChangesNothing(s1, job, services);
    if t.back { FrontIsLined(q, q0', job); }
  }

  lemma {:induction false} TurnLogOrdered(
    s: State, prev: Option<Tried>, q0: seq<Job>, services: nat -> Outcome, budget: nat)
    returns (q0': seq<Job>)
    requires Lined(s.queues, Awaiting(prev), q0)
    ensures var log := TurnLog(s, services, budget);
      && Ordered(prev, log)
      && Lined(Process(s, services, budget).queues, Awaiting(Before(prev, log, |log|)), q0')
    decreases budget
  {
    hide Attempt, Lined, Pop, Follows, Ordered;
    q0' := q0;
    if budget > 0 && Pop(s.queues).1.Some? {
      var (q, job) := Pop(s.queues);
      var t, l1 := AttemptLines(s, prev, q0, services);
      var s1 := Attempt(s.(queues := q), job.value, services);
      q0' := TurnLogOrdered(s1, Some(t), l1, services, budget - 1);
      OneOrdered(prev, t);
      OrderedJoins(prev, [t], TurnLog(s1, services, budget - 1));
    } else {
      NoneOrdered(prev);
    }
  }

  lemma OneOrdered(prev: Option<Tried>, t: Tried)
    requires Follows(prev, t)
    ensures Ordered(prev, [t])
  {
    hide Follows;
  }

  lemma NoneOrdered(prev: Option<Tried>)
    ensures Ordered(prev, [])
  {
  }

  lemma ArrivalLines(q: Queues, retry: Option<Job>, q0: seq<Job>, job: Job) returns (q0': seq<Job>)
    requires Lined(q, retry, q0)
    ensures Lined(Enqueue(q, job), retry, q0')
  {
    q0' := if job.priority == P0 then q0 + [job] else q0;
    assert Enqueue(q, job).p0 == (if retry.Some? then [retry.value] else []) + q0';
  }

  lemma {:induction false} LogOrdered(
    s: State, prev: Option<Tried>, q0: seq<Job>, services: nat -> Outcome, events: seq<Event>)
    requires Lined(s.queues, Awaiting(prev), q0)
    ensures Ordered(prev, Log(s, services, events))
    decreases |events|
  {
    hide Lined, Ordered, TurnLog, Process, Enqueue;
    if events == [] {
      NoneOrdered(prev);
    } else {
      var s1 := Happen(s, services, events[0]);
      match events[0] {
        case Arrive(job) =>
          var l1 := ArrivalLines(s.queues, Awaiting(prev), q0, job);
          LogOrdered(s1, prev, l1, services, events[1..]);
          assert [] + Log(s1, services, events[1..]) == Log(s1, services, events[1..]);
        case Turn(budget) =>
          var l1 := TurnLogOrdered(s, prev, q0, services, budget);
          var log := TurnLog(s, services, budget);
          LogOrdered(s1, Before(prev, log, |log|), l1, services, events[1..]);
          OrderedJoins(prev, log, Log(s1, services, events[1..]));
      }
    }
  }

  /** Over every run, whatever arrives when and whatever the services answer: an intent sent back is
      the next to be tried, and every other attempt is on the oldest intent of its priority, made only
      while the queues of every higher priority are empty. */
  lemma AttemptsInOrder(world: World, services: nat -> Outcome, events: seq<Event>)
    ensures Ordered(None, Log(Start(world), services, events))
  {
    LogOrdered(Start(world), None, [], services, events);
  }

  /** An intent sent back is tried before any that outranks it: a low-priority load goes ahead of the
      frame that arrived while the services were closed. */
  lemma RetryOutranks(world: World)
    ensures var load, frame := Job(P2, LoadRom(0, [])), Job(P0, PumpFrame);
      var log := Log(Start(world), (n: nat) => Closed, [Arrive(load), Turn(1), Arrive(frame), Turn(1)]);
      |log| == 2 && log[1].job == load && frame in log[1].queues.p0
  {
    hide Log, Happen, Pop, TurnLog, Process;
    var load, frame := Job(P2, LoadRom(0, [])), Job(P0, PumpFrame);
    var services := (n: nat) => Closed;
    var e0, e1, e2 := Arrive(load), Turn(1), Arrive(frame);
    var s1 := State(world, Queues([], [], [load]), 0, []);
    var s2 := State(world, Queues([load], [], []), 1, []);
    var s3 := State(world, Queues([load, frame], [], []), 1, []);
    LowLoad(world, services, load, frame);
    var t1, t2 := [e1, e2, e1], [e2, e1];
    assert [e0, e1, e2, e1][1..] == t1 && t1[1..] == t2 && t2[1..] == [e1] && [e1][1..] == [];
    LogStep(Start(world), services, [e0, e1, e2, e1]);
    LogStep(s1, services, t1);
    LogStep(s2, services, t2);
    LogStep(s3, services, [e1]);
    LogEnds(Happen(s3, services, e1), services);
  }

  /** The states of that run. */
  lemma LowLoad(world: World, services: nat -> Outcome, load: Job, frame: Job)
    requires load == Job(P2, LoadRom(0, [])) && frame == Job(P0, PumpFrame)
    requires services(0) == Closed && services(1) == Closed
    ensures var s1, s2, s3 := State(world, Queues([], [], [load]), 0, []), State(world, Queues([load], [], []), 1, []),
                              State(world, Queues([load, frame], [], []), 1, []);
      && Happen(Start(world), services, Arrive(load)) == s1 && Happen(s1, services, Turn(1)) == s2
      && Happen(s2, services, Arrive(frame)) == s3
      && TurnLog(s1, services, 1) == [Tried(s1.queues, load, true)]
      && TurnLog(s3, services, 1) == [Tried(s3.queues, load, true)]
  {
    hide TurnLog, Process;
    var s1, s3 := State(world, Queues([], [], [load]), 0, []), State(world, Queues([load, frame], [], []), 1, []);
    SentBackOnce(s1, services);
    SentBackOnce(s3, services);
  }

  lemma LogEnds(s: State, services: nat -> Outcome)
    ensures Log(s, services, []) == []
  {
  }

  lemma LogStep(s: State, services: nat -> Outcome, events: seq<Event>)
    requires events != []
    ensures var rest := Log(Happen(s, services, events[0]), services, events[1..]);
      Log(s, services, events) == if events[0].Turn? then TurnLog(s, services, events[0].budget) + rest else rest
  {
    hide TurnLog, Happen;
  }

  /** One turn with the services closed tries the first intent and puts it back at the front. */
  lemma SentBackOnce(s: State, services: nat -> Outcome)
    requires Pop(s.queues).1.Some? && Pop(s.queues).1.value.intent.LoadRom? && services(s.asked) == Closed
    ensures var (q, job) := Pop(s.queues);
      && TurnLog(s, services, 1) == [Tried(s.queues, job.value, true)]
      && Process(s, services, 1) == State(s.world, Front(q, job.value), s.asked + 1, s.done)
  {
    hide Pop, Front;
    var (q, job) := Pop(s.queues);
    var s1 := Attempt(s.(queues := q), job.value, services);
    assert TurnLog(s1, services, 0) == [] && Process(s1, services, 0) == s1;
  }

  /** A turn tries as many intents as its budget allows and stops early only on empty queues. */
  lemma {:induction false} BudgetSpent(s: State, services: nat -> Outcome, budget: nat)
    ensures var log, s' := TurnLog(s, services, budget), Process(s, services, budget);
      && |log| <= budget
      && (|log| < budget ==> s'.queues == Queues([], [], []))
    decreases budget
  {
    hide Attempt, Pop;
    if budget > 0 {
      if Pop(s.queues).1.None? {
        NothingLeft(s.queues);
      } else {
        var (q, job) := Pop(s.queues);
        BudgetSpent(Attempt(s.(queues := q), job.value, services), services, budget - 1);
      }
    }
  }

  lemma NothingLeft(q: Queues)
    requires Pop(q).1.None?
    ensures q == Queues([], [], [])
  {
  }
}
