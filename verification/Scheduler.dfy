/**
 The intent scheduler: three priority queues, a budgeted loop that reduces intents to commands and
 submits them, and a rule that puts an intent refused under backpressure back at the very front.
 */
module Scheduler {
  import opened RingLayout

  // ----- Intents, the world, commands -----

  datatype Priority = P0 | P1 | P2

  datatype Intent =
    | PumpFrame | TogglePause | SetSpeed(multiplier: real)
    | LoadRom(group: nat, rom: seq<bv8>) | SelectDisplayLane(lane: nat)
    | DebugSnapshot(group: nat) | DebugMem(group: nat, space: nat, base: nat, len: nat)
    | DebugStepInstruction(group: nat, count: nat) | DebugStepFrame(group: nat)

  /** The part of the world that intents change. */
  datatype World = World(paused: bool, speed: real, displayLane: nat)

  datatype Cmd =
    | Tick(group: nat, cycles: int) | Load(group: nat, rom: seq<bv8>)
    | Snapshot(group: nat) | MemWindow(group: nat, space: nat, base: nat, len: nat)
    | StepInstruction(group: nat, count: nat) | StepFrame(group: nat)

  datatype Policy = Must | Coalescing | BestEffort | Lossless

  datatype Outcome = Accepted | Coalesced | Dropped | WouldBlock | Closed

  function PolicyOf(cmd: Cmd): Policy {
    match cmd
    case Tick(_, _) => Coalescing
    case Load(_, _) => Lossless
    case Snapshot(_) => Coalescing
    case MemWindow(_, _, _, _) => Lossless
    case StepInstruction(_, _) => Lossless
    case StepFrame(_) => Lossless
  }

  function ClampSpeed(speed: real): real {
    if speed < 0.1 then 0.1 else if speed > 10.0 then 10.0 else speed
  }

  /** Cycles of one frame at a speed, rounded to the nearest. */
  function CycleBudget(speed: real): int {
    (70224.0 * speed + 0.5).Floor
  }

  /** What an intent does to the world, and what it asks of the services. */
  function Reduce(w: World, intent: Intent): (World, seq<Cmd>) {
    match intent
    case PumpFrame => (w, [Tick(0, CycleBudget(w.speed))])
    case LoadRom(group, rom) => (w, [Load(group, rom)])
    case TogglePause => (w.(paused := !w.paused), [])
    case SetSpeed(multiplier) => (w.(speed := ClampSpeed(multiplier)), [])
    case SelectDisplayLane(lane) => (w.(displayLane := lane), [])
    case DebugSnapshot(group) => (w, [Snapshot(group)])
    case DebugMem(group, space, base, len) => (w, [MemWindow(group, space, base, len)])
    case DebugStepInstruction(group, count) => (w, [StepInstruction(group, count)])
    case DebugStepFrame(group) => (w, [StepFrame(group)])
  }

  // ----- Queues -----

  /** An intent with the priority it was enqueued under. */
  datatype Job = Job(priority: Priority, intent: Intent)

  datatype Queues = Queues(p0: seq<Job>, p1: seq<Job>, p2: seq<Job>)

  function Enqueue(q: Queues, job: Job): Queues {
    match job.priority
    case P0 => q.(p0 := q.p0 + [job])
    case P1 => q.(p1 := q.p1 + [job])
    case P2 => q.(p2 := q.p2 + [job])
  }

  function Front(q: Queues, job: Job): Queues {
    q.(p0 := [job] + q.p0)
  }

  function Pop(q: Queues): (Queues, Option<Job>) {
    if q.p0 != [] then (q.(p0 := q.p0[1..]), Some(q.p0[0]))
    else if q.p1 != [] then (q.(p1 := q.p1[1..]), Some(q.p1[0]))
    else if q.p2 != [] then (q.(p2 := q.p2[1..]), Some(q.p2[0]))
    else (q, None)
  }

  // ----- Processing -----

  /** Backpressure that sends an intent back. */
  predicate SentBack(cmd: Cmd, outcome: Outcome) {
    outcome == Closed || (outcome == WouldBlock && PolicyOf(cmd) in {Must, Lossless})
  }

  /** Submits commands until one is sent back; `services` answers each submission in turn. */
  function SubmitAll(cmds: seq<Cmd>, services: nat -> Outcome, at: nat): (bool, nat)
    decreases |cmds|
  {
    if cmds == [] then (false, at)
    else if SentBack(cmds[0], services(at)) then (true, at + 1)
    else SubmitAll(cmds[1..], services, at + 1)
  }

  /** `asked` counts submissions; `done` lists the intents that have left, in order. */
  datatype State = State(world: World, queues: Queues, asked: nat, done: seq<Job>)

  /** One turn of the loop on a popped job. */
  function Attempt(s: State, job: Job, services: nat -> Outcome): State {
    var (world, cmds) := Reduce(s.world, job.intent);
    var (retry, asked) := SubmitAll(cmds, services, s.asked);
    if retry then State(world, Front(s.queues, job), asked, s.done)
    else State(world, s.queues, asked, s.done + [job])
  }

  function Process(s: State, services: nat -> Outcome, budget: nat): State
    decreases budget
  {
    if budget == 0 then s
    else
      match Pop(s.queues)
      case (_, None) => s
      case (queues, Some(job)) => Process(Attempt(s.(queues := queues), job, services), services, budget - 1)
  }

  // ----- A retry repeats nothing -----

  /** An intent that changes the world submits nothing, so it is never sent back. */
  lemma RetryChangesNothing(s: State, job: Job, services: nat -> Outcome)
    ensures var s' := Attempt(s, job, services);
      s'.done == s.done ==> s'.world == s.world && s'.queues == Front(s.queues, job)
    ensures var s' := Attempt(s, job, services);
      s'.done != s.done ==>
        && s'.done == s.done + [job] && s'.world == Reduce(s.world, job.intent).0 && s'.queues == s.queues
  {
    hide SubmitAll, CycleBudget, ClampSpeed;
    if Reduce(s.world, job.intent).1 == [] { NothingToSubmit(services, s.asked); }
    assert s.done + [job] != s.done;
  }

  lemma NothingToSubmit(services: nat -> Outcome, at: nat)
    ensures SubmitAll([], services, at) == (false, at)
  {
  }

  /** An intent leaves exactly when it asks for nothing, or the one answer it gets is not Closed and,
      unless it is a frame or a snapshot, not WouldBlock either. */
  lemma LeavesOnlyWhenTaken(s: State, job: Job, services: nat -> Outcome)
    ensures var s', answer := Attempt(s, job, services), services(s.asked);
      if job.intent.TogglePause? || job.intent.SetSpeed? || job.intent.SelectDisplayLane? then
        s'.done == s.done + [job] && s'.asked == s.asked
      else
        && s'.asked == s.asked + 1
        && (s'.done != s.done
            <==> answer != Closed && (answer == WouldBlock ==> job.intent.PumpFrame? || job.intent.DebugSnapshot?))
  {
    hide CycleBudget, ClampSpeed;
    var cmds := Reduce(s.world, job.intent).1;
    if cmds != [] {
      assert |cmds| == 1 && cmds[1..] == [];
      NothingToSubmit(services, s.asked + 1);
    } else {
      NothingToSubmit(services, s.asked);
    }
    assert s.done + [job] != s.done;
  }

  /** The intents a service may not lose are exactly those whose command is lossless. */
  lemma LosslessIntents(w: World, intent: Intent)
    ensures var cmds := Reduce(w, intent).1;
      (cmds != [] && PolicyOf(cmds[0]) in {Must, Lossless})
      <==> intent.LoadRom? || intent.DebugMem? || intent.DebugStepInstruction? || intent.DebugStepFrame?
  {
  }

  /** The speed a request leads to is the nearest one allowed, and the frame that follows is asked for
      the whole number of cycles nearest to that many times 70224. */
  lemma SpeedSetsTheFrame(w: World, multiplier: real, s: real)
    requires 0.1 <= s <= 10.0
    ensures var w' := Reduce(w, SetSpeed(multiplier)).0;
      && 0.1 <= w'.speed <= 10.0 && (multiplier == s ==> w'.speed == s)
      && (multiplier < s ==> w'.speed <= s) && (multiplier > s ==> w'.speed >= s)
      && w' == w.(speed := w'.speed)
      && var cmds := Reduce(w', PumpFrame).1;
        && |cmds| == 1 && cmds[0].Tick? && cmds[0].group == 0
        && -0.5 < cmds[0].cycles as real - 70224.0 * w'.speed <= 0.5
  {
    var speed := ClampSpeed(multiplier);
    Nearest(70224.0 * speed);
  }

  lemma Nearest(r: real)
    ensures -0.5 < (r + 0.5).Floor as real - r <= 0.5
  {
  }

  /** Pausing twice is not pausing, a lane selection is the last one made, and no other intent but a
      speed request changes the world. */
  lemma WorldChanges(w: World, intent: Intent)
    ensures intent.TogglePause? ==> Reduce(w, intent).0 == w.(paused := !w.paused)
    ensures intent.SelectDisplayLane? ==> Reduce(w, intent).0 == w.(displayLane := intent.lane)
    ensures !(intent.TogglePause? || intent.SelectDisplayLane? || intent.SetSpeed?) ==> Reduce(w, intent).0 == w
  {
  }

  /** A debugging or loading intent asks for exactly one command, which carries everything it names. */
  lemma CommandsCarry(w: World, intent: Intent)
    ensures var cmds := Reduce(w, intent).1;
      match intent
      case LoadRom(group, rom) => cmds == [Load(group, rom)]
      case DebugSnapshot(group) => cmds == [Snapshot(group)]
      case DebugMem(group, space, base, len) => cmds == [MemWindow(group, space, base, len)]
      case DebugStepInstruction(group, count) => cmds == [StepInstruction(group, count)]
      case DebugStepFrame(group) => cmds == [StepFrame(group)]
      case PumpFrame => |cmds| == 1 && cmds[0].Tick?
      case _ => cmds == []
  {
  }

  // ----- Runs -----

  datatype Event = Arrive(job: Job) | Turn(budget: nat)

  function Happen(s: State, services: nat -> Outcome, event: Event): State {
    match event
    case Arrive(job) => s.(queues := Enqueue(s.queues, job))
    case Turn(budget) => Process(s, services, budget)
  }

  function Run(s: State, services: nat -> Outcome, events: seq<Event>): State
    decreases |events|
  {
    if events == [] then s else Run(Happen(s, services, events[0]), services, events[1..])
  }

  /** The jobs that arrived. */
  function Arrived(events: seq<Event>): seq<Job>
    decreases |events|
  {
    if events == [] then []
    else (if events[0].Arrive? then [events[0].job] else []) + Arrived(events[1..])
  }

  /** The jobs of one priority, in order. */
  function Of(c: Priority, jobs: seq<Job>): seq<Job>
    decreases |jobs|
  {
    if jobs == [] then []
    else (if jobs[0].priority == c then [jobs[0]] else []) + Of(c, jobs[1..])
  }

  predicate All(c: Priority, jobs: seq<Job>) {
    forall job :: job in jobs ==> job.priority == c
  }

  /** A job waiting for its retry, if any. */
  function Waiting(c: Priority, retry: Option<Job>): seq<Job> {
    if retry.Some? && retry.value.priority == c then [retry.value] else []
  }

  /** The lines, behind the retried job: `q0` is queue 0 without it. */
  ghost predicate Lined(q: Queues, retry: Option<Job>, q0: seq<Job>) {
    && q.p0 == (if retry.Some? then [retry.value] else []) + q0
    && All(P0, q0) && All(P1, q.p1) && All(P2, q.p2)
  }

  function Line(c: Priority, q: Queues, q0: seq<Job>): seq<Job> {
    match c
    case P0 => q0
    case P1 => q.p1
    case P2 => q.p2
  }

  /** What every run keeps: at most one job awaits a retry and it is first of all; and for every
      priority the jobs that arrived are those done, the retried one, and the rest of the line. */
  ghost predicate Fair(s: State, arrived: seq<Job>, retry: Option<Job>, q0: seq<Job>) {
    && Lined(s.queues, retry, q0)
    && forall c :: Of(c, arrived) == Of(c, s.done) + Waiting(c, retry) + Line(c, s.queues, q0)
  }

  lemma JobsJoin(a: seq<Job>, b: seq<Job>, rest: seq<Job>)
    ensures a + (b + rest) == a + b + rest
  {
  }

  lemma {:induction false} OfSplits(c: Priority, a: seq<Job>, b: seq<Job>)
    ensures Of(c, a + b) == Of(c, a) + Of(c, b)
    decreases |a|
  {
    if a == [] {
      assert a + b == b;
    } else {
      assert (a + b)[1..] == a[1..] + b;
      OfSplits(c, a[1..], b);
      var first := if a[0].priority == c then [a[0]] else [];
      assert Of(c, a + b) == first + Of(c, (a + b)[1..]);
      JobsJoin(first, Of(c, a[1..]), Of(c, b));
    }
  }

  lemma OfOne(c: Priority, job: Job)
    ensures Of(c, [job]) == if job.priority == c then [job] else []
  {
    assert Of(c, [job][1..]) == [];
  }

  lemma OfSnoc(c: Priority, jobs: seq<Job>, job: Job)
    ensures Of(c, jobs + [job]) == if job.priority == c then Of(c, jobs) + [job] else Of(c, jobs)
  {
    OfSplits(c, jobs, [job]);
    OfOne(c, job);
  }

  /** An arrival joins the end of its line. */
  lemma ArrivalIsFair(s: State, arrived: seq<Job>, retry: Option<Job>, q0: seq<Job>, job: Job)
    requires Fair(s, arrived, retry, q0)
    ensures Fair(s.(queues := Enqueue(s.queues, job)), arrived + [job], retry,
                 if job.priority == P0 then q0 + [job] else q0)
  {
    hide Of;
    var q, q' := s.queues, Enqueue(s.queues, job);
    var q0' := if job.priority == P0 then q0 + [job] else q0;
    assert q'.p0 == (if retry.Some? then [retry.value] else []) + q0';
    forall c ensures Of(c, arrived + [job]) == Of(c, s.done) + Waiting(c, retry) + Line(c, q', q0') {
      OfSnoc(c, arrived, job);
      assert Line(c, q', q0') == Line(c, q, q0) + (if job.priority == c then [job] else []);
    }
  }

  /** Popping takes the retried job if there is one, and otherwise the head of the first line that is
      not empty: a P1 job only behind an empty P0 line, a P2 job only behind two empty lines. */
  lemma PopIsHead(q: Queues, retry: Option<Job>, q0: seq<Job>)
    requires Lined(q, retry, q0)
    ensures var (q', job) := Pop(q);
      if retry.Some? then job == retry && Lined(q', None, q0) && q'.p1 == q.p1 && q'.p2 == q.p2
      else if job.None? then q' == q && q0 == [] && q.p1 == [] && q.p2 == []
      else
        var c := job.value.priority;
        var q0' := if c == P0 then q0[1..] else q0;
        && (c == P0 <==> q0 != []) && (c == P2 ==> q.p1 == []) && Lined(q', None, q0')
        && Line(c, q, q0) == [job.value] + Line(c, q', q0')
        && forall d :: d != c ==> Line(d, q, q0) == Line(d, q', q0')
  {
    if retry.Some? {
      assert q.p0[1..] == q0;
    } else {
      assert q.p0 == q0;
      if q0 != [] {
        assert q0 == [q0[0]] + q0[1..] && q0[0] in q0;
      } else if q.p1 != [] {
        assert q.p1 == [q.p1[0]] + q.p1[1..] && q.p1[0] in q.p1;
      } else if q.p2 != [] {
        assert q.p2 == [q.p2[0]] + q.p2[1..] && q.p2[0] in q.p2;
      }
    }
  }

  /** One turn of the loop keeps fairness. */
  lemma TurnIsFair(s: State, arrived: seq<Job>, retry: Option<Job>, q0: seq<Job>, services: nat -> Outcome)
    returns (retry': Option<Job>, q0': seq<Job>)
    requires Fair(s, arrived, retry, q0) && Pop(s.queues).1.Some?
    ensures var (q, job) := Pop(s.queues);
      Fair(Attempt(s.(queues := q), job.value, services), arrived, retry', q0')
  {
    hide Of, Attempt, Lined, Line, Pop;
    var (q, next) := Pop(s.queues);
    var job := next.value;
    PopIsHead(s.queues, retry, q0);
    q0' := if retry.None? && job.priority == P0 then q0[1..] else q0;
    var s1 := s.(queues := q);
    var s' := Attempt(s1, job, services);
    RetryChangesNothing(s1, job, services);
    LinesStay(q, s.queues, q0, q0', retry, job);
    if s'.done == s.done {
      retry' := Some(job);
      FrontIsLined(q, q0', job);
      forall c ensures Of(c, arrived) == Of(c, s'.done) + Waiting(c, retry') + Line(c, s'.queues, q0') {
        FrontLines(c, q, q0', job);
        TakenFirst(Of(c, s.done), Waiting(c, retry), Line(c, s.queues, q0), Waiting(c, retry'), Line(c, q, q0'));
      }
    } else {
      retry' := None;
      forall c ensures Of(c, arrived) == Of(c, s'.done) + Waiting(c, retry') + Line(c, s'.queues, q0') {
        OfSnoc(c, s.done, job);
        TakenFirst(Of(c, s.done), Waiting(c, retry), Line(c, s.queues, q0), Waiting(c, Some(job)), Line(c, q, q0'));
        assert Of(c, s.done + [job]) == Of(c, s.done) + Waiting(c, Some(job));
        assert Of(c, s.done) + Waiting(c, Some(job)) + [] == Of(c, s.done) + Waiting(c, Some(job));
      }
    }
  }

  /** The retried job or the head of a line is what the lines lose by a pop. */
  lemma LinesStay(q': Queues, q: Queues, q0: seq<Job>, q0': seq<Job>, retry: Option<Job>, job: Job)
    requires Lined(q, retry, q0) && Pop(q) == (q', Some(job))
    requires q0' == if retry.None? && job.priority == P0 then q0[1..] else q0
    requires retry.None? && job.priority == P0 ==> q0 != []
    ensures forall c :: Waiting(c, retry) + Line(c, q, q0) == Waiting(c, Some(job)) + Line(c, q', q0')
    ensures Lined(q', None, q0')
  {
    hide Lined, Pop;
    PopIsHead(q, retry, q0);
    forall c ensures Waiting(c, retry) + Line(c, q, q0) == Waiting(c, Some(job)) + Line(c, q', q0') {
      if retry.None? {
        assert Waiting(c, retry) + Line(c, q, q0) == Line(c, q, q0);
        assert c != job.priority ==> Waiting(c, Some(job)) + Line(c, q', q0') == Line(c, q', q0');
      }
    }
  }

  lemma FrontIsLined(q: Queues, q0: seq<Job>, job: Job)
    requires Lined(q, None, q0)
    ensures Lined(Front(q, job), Some(job), q0)
  {
    assert q.p0 == q0;
  }

  lemma FrontLines(c: Priority, q: Queues, q0: seq<Job>, job: Job)
    ensures Line(c, Front(q, job), q0) == Line(c, q, q0)
  {
  }

  lemma TakenFirst(done: seq<Job>, w: seq<Job>, line: seq<Job>, w': seq<Job>, line': seq<Job>)
    requires w + line == w' + line'
    ensures done + w + line == done + w' + line'
  {
    assert done + w + line == done + (w + line);
    assert done + w' + line' == done + (w' + line');
  }

  lemma {:induction false} ProcessIsFair(
    s: State, arrived: seq<Job>, retry: Option<Job>, q0: seq<Job>, services: nat -> Outcome, budget: nat)
    returns (retry': Option<Job>, q0': seq<Job>)
    requires Fair(s, arrived, retry, q0)
    ensures Fair(Process(s, services, budget), arrived, retry', q0')
    decreases budget
  {
    hide Fair, Attempt, Pop;
    retry', q0' := retry, q0;
    if budget > 0 && Pop(s.queues).1.Some? {
      var (q, job) := Pop(s.queues);
      var r1, l1 := TurnIsFair(s, arrived, retry, q0, services);
      var s1 := Attempt(s.(queues := q), job.value, services);
      retry', q0' := ProcessIsFair(s1, arrived, r1, l1, services, budget - 1);
    }
  }

  lemma {:induction false} RunIsFair(
    s: State, arrived: seq<Job>, retry: Option<Job>, q0: seq<Job>, services: nat -> Outcome, events: seq<Event>)
    returns (retry': Option<Job>, q0': seq<Job>)
    requires Fair(s, arrived, retry, q0)
    ensures Fair(Run(s, services, events), arrived + Arrived(events), retry', q0')
    decreases |events|
  {
    hide Fair, Process, Enqueue, Arrived;
    ArrivedStep(arrived, events);
    if events == [] {
      retry', q0' := retry, q0;
    } else {
      var s1 := Happen(s, services, events[0]);
      match events[0] {
        case Arrive(job) =>
          ArrivalIsFair(s, arrived, retry, q0, job);
          retry', q0' := RunIsFair(s1, arrived + [job], retry, if job.priority == P0 then q0 + [job] else q0,
                                   services, events[1..]);
        case Turn(budget) =>
          var r1, l1 := ProcessIsFair(s, arrived, retry, q0, services, budget);
          retry', q0' := RunIsFair(s1, arrived, r1, l1, services, events[1..]);
      }
    }
  }

  lemma ArrivedStep(arrived: seq<Job>, events: seq<Event>)
    ensures events == [] ==> arrived + Arrived(events) == arrived
    ensures events != [] ==>
      arrived + Arrived(events)
      == (if events[0].Arrive? then arrived + [events[0].job] else arrived) + Arrived(events[1..])
  {
    if events != [] {
      var rest := Arrived(events[1..]);
      if events[0].Arrive? {
        JobsJoin(arrived, [events[0].job], rest);
      } else {
        assert Arrived(events) == [] + rest == rest;
      }
    }
  }

  function Start(world: World): State {
    State(world, Queues([], [], []), 0, [])
  }

  /** No loss and order, whatever the services answer: over any run of arrivals and budgeted turns,
      for each priority the arrivals are, in order, those that have left, then the one awaiting a
      retry if it is of that priority, then those still in line; and the retried job, at most one,
      heads the first queue. */
  lemma NoLossInOrder(world: World, services: nat -> Outcome, events: seq<Event>)
    ensures exists retry, q0 :: Fair(Run(Start(world), services, events), Arrived(events), retry, q0)
  {
    hide Run, Arrived, Of;
    assert forall c :: Of(c, []) == [] by { NoneOf(); }
    assert Fair(Start(world), [], None, []);
    var retry, q0 := RunIsFair(Start(world), [], None, [], services, events);
    assert [] + Arrived(events) == Arrived(events);
  }

  lemma NoneOf()
    ensures forall c :: Of(c, []) == []
  {
  }

  // ----- The world -----

  /** The world after the given intents, each once. */
  function Reduced(w: World, jobs: seq<Job>): World
    decreases |jobs|
  {
    if jobs == [] then w else Reduce(Reduced(w, jobs[..|jobs| - 1]), jobs[|jobs| - 1].intent).0
  }

  lemma ReducedSnoc(w: World, jobs: seq<Job>, job: Job)
    ensures Reduced(w, jobs + [job]) == Reduce(Reduced(w, jobs), job.intent).0
  {
    assert (jobs + [job])[..|jobs|] == jobs;
  }

  lemma {:induction false} ProcessReducesOnce(w: World, s: State, services: nat -> Outcome, budget: nat)
    requires s.world == Reduced(w, s.done)
    ensures var s' := Process(s, services, budget); s'.world == Reduced(w, s'.done)
    decreases budget
  {
    hide Reduce, Reduced, Attempt, Pop;
    if budget > 0 && Pop(s.queues).1.Some? {
      var (q, job) := Pop(s.queues);
      RetryChangesNothing(s.(queues := q), job.value, services);
      ReducedSnoc(w, s.done, job.value);
      ProcessReducesOnce(w, Attempt(s.(queues := q), job.value, services), services, budget - 1);
    }
  }

  /** However often intents were retried, the world is what each intent that has left does to it,
      applied once and in the order they left. */
  lemma {:induction false} WorldReducedOnce(w: World, s: State, services: nat -> Outcome, events: seq<Event>)
    requires s.world == Reduced(w, s.done)
    ensures var s' := Run(s, services, events); s'.world == Reduced(w, s'.done)
    decreases |events|
  {
    hide Reduced, Process;
    if events != [] {
      if events[0].Turn? { ProcessReducesOnce(w, s, services, events[0].budget); }
      WorldReducedOnce(w, Happen(s, services, events[0]), services, events[1..]);
    }
  }
}
