/**
 The scheduler as it runs: queues changed in place and a loop that counts a budget down. It computes
 the processing function the scheduler's theorems are about.
 */
module SchedulerDevice {
  import opened RingLayout
  import S = Scheduler

  class PQueues {
    var p0: seq<S.Job>
    var p1: seq<S.Job>
    var p2: seq<S.Job>

    function Value(): S.Queues
      reads this
    {
      S.Queues(p0, p1, p2)
    }

    constructor ()
      ensures Value() == S.Queues([], [], [])
    {
      p0, p1, p2 := [], [], [];
    }

    method Enqueue(priority: S.Priority, intent: S.Intent)
      modifies this
      ensures Value() == S.Enqueue(old(Value()), S.Job(priority, intent))
    {
      match priority {
        case P0 => p0 := p0 + [S.Job(priority, intent)];
        case P1 => p1 := p1 + [S.Job(priority, intent)];
        case P2 => p2 := p2 + [S.Job(priority, intent)];
      }
    }

    method EnqueueFrontP0(job: S.Job)
      modifies this
      ensures Value() == S.Front(old(Value()), job)
    {
      p0 := [job] + p0;
    }

    /** The oldest item of the highest non-empty priority. */
    method PopNext() returns (job: Option<S.Job>)
      modifies this
      ensures (Value(), job) == S.Pop(old(Value()))
      ensures job.None? <==> old(|p0| + |p1| + |p2|) == 0
      ensures old(|p0|) > 0 ==> old(p0) == [job.value] + p0 && p1 == old(p1) && p2 == old(p2)
      ensures old(|p0|) == 0 && old(|p1|) > 0 ==> p0 == [] && old(p1) == [job.value] + p1 && p2 == old(p2)
      ensures old(|p0|) == 0 && old(|p1|) == 0 && old(|p2|) > 0 ==> p0 == p1 == [] && old(p2) == [job.value] + p2
    {
      if |p0| > 0 {
        job := Some(p0[0]);
        p0 := p0[1..];
      } else if |p1| > 0 {
        job := Some(p1[0]);
        p1 := p1[1..];
      } else if |p2| > 0 {
        job := Some(p2[0]);
        p2 := p2[1..];
      } else {
        job := None;
      }
    }
  }

  /** The services behind the hub, whatever they answer. */
  class Hub {
    const answers: nat -> S.Outcome
    var asked: nat

    constructor (answers: nat -> S.Outcome)
      ensures this.answers == answers && asked == 0
    {
      this.answers, asked := answers, 0;
    }

    method TrySubmit(cmd: S.Cmd) returns (outcome: S.Outcome)
      modifies this
      ensures outcome == answers(old(asked)) && asked == old(asked) + 1
    {
      outcome := answers(asked);
      asked := asked + 1;
    }
  }

  class Scheduler {
    const queues: PQueues
    const hub: Hub
    const budget: nat
    var world: S.World
    ghost var done: seq<S.Job>

    ghost function State(): S.State
      reads this, queues, hub
    {
      S.State(world, queues.Value(), hub.asked, done)
    }

    constructor (world: S.World, hub: Hub, budget: nat)
      ensures fresh(queues) && this.hub == hub && this.budget == budget
      ensures State() == S.State(world, S.Queues([], [], []), hub.asked, [])
    {
      queues := new PQueues();
      this.world, this.hub, this.budget, done := world, hub, budget, [];
    }

    /** Submits an intent's commands in order, stopping at one that is sent back. */
    method Submit(cmds: seq<S.Cmd>) returns (retry: bool)
      modifies hub
      ensures (retry, hub.asked) == S.SubmitAll(cmds, hub.answers, old(hub.asked))
    {
      retry := false;
      var i := 0;
      while i < |cmds|
        invariant 0 <= i <= |cmds|
        invariant S.SubmitAll(cmds[i..], hub.answers, hub.asked) == S.SubmitAll(cmds, hub.answers, old(hub.asked))
      {
        var policy := S.PolicyOf(cmds[i]);
        var outcome := hub.TrySubmit(cmds[i]);
        match outcome {
          case WouldBlock =>
            if policy in {S.Must, S.Lossless} { return true; }
          case Closed => return true;
          case _ =>
        }
        assert cmds[i..][1..] == cmds[i + 1..];
        i := i + 1;
      }
    }

    method ProcessIntents()
      modifies this, queues, hub
      ensures State() == S.Process(old(State()), hub.answers, budget)
    {
      hide S.SubmitAll, S.Reduce;
      ghost var s := State();
      var left: nat := budget;
      while left > 0
        invariant left <= budget
        invariant S.Process(State(), hub.answers, left) == S.Process(s, hub.answers, budget)
      {
        var intent := queues.PopNext();
        if intent.None? { return; }
        left := left - 1;
        var (after, cmds) := S.Reduce(world, intent.value.intent);
        world := after;
        var retry := Submit(cmds);
        if retry {
          queues.EnqueueFrontP0(intent.value);
        } else {
          done := done + [intent.value];
        }
      }
    }
  }
}
