/** Shutdown always makes progress and always ends. */
module PipelineProgress {
  import opened Sequences
  import opened Pipeline
  import opened PipelineSafety
  import opened PipelineDrain

  function ProducerWork(p: Producer): nat {
    match p
    case Waiting => 2
    case Holding(_) => 6
    case Returning => 1
    case Finished => 0
  }

  function WorkerWork(w: Worker): nat {
    match w
    case Receiving => 2
    case Got(_) => 4
    case Publishing(_) => 3
    case Leaving => 1
    case Stopped => 0
  }

  function CloserWork(p: Closer): nat {
    match p
    case AwaitingProducers => 2
    case Closing => 1
    case _ => 0
  }

  function MainWork(p: Main): nat {
    match p
    case Starting => 6
    case AwaitingCancel => 3
    case ShuttingDown => 2
    case AwaitingWorkers => 1
    case Exited => 0
  }

  /** What is left to do: goroutines to launch and to finish, events held, buffered or in a worker. */
  function Work(c: Config, s: State): int {
    Total(ProducerWork, s.producers) + 3 * (c.devices - |s.producers|)
    + Total(WorkerWork, s.workers) + 3 * (c.workers - |s.workers|)
    + 3 * |s.queue| + CloserWork(s.closer) + MainWork(s.main) + (if s.cancelled then 0 else 1)
  }

  lemma ProducersWorkFalls(s: State, i: nat, p: Producer)
    requires i < |s.producers|
    ensures Total(ProducerWork, s.producers[i := p])
        == Total(ProducerWork, s.producers) + ProducerWork(p) - ProducerWork(s.producers[i])
  {
    TotalUpdate(ProducerWork, s.producers, i, p);
  }

  lemma WorkersWorkFalls(s: State, j: nat, w: Worker)
    requires j < |s.workers|
    ensures Total(WorkerWork, s.workers[j := w])
        == Total(WorkerWork, s.workers) + WorkerWork(w) - WorkerWork(s.workers[j])
  {
    TotalUpdate(WorkerWork, s.workers, j, w);
  }

  lemma WorkFallsByProducers(c: Config, s: State, step: Step)
    requires !s.closed && Enabled(c, s, step)
    requires OfProducer(step)
    ensures var before, after := Work(c, s), Work(c, Apply(c, s, step));
      if step.Tick? then after == before + 4 else after < before
  {
    ProducersWorkFalls(s, step.i, Apply(c, s, step).producers[step.i]);
  }

  lemma WorkFallsByWorkers(c: Config, s: State, step: Step)
    requires Enabled(c, s, step)
    requires OfWorker(step)
    ensures Work(c, Apply(c, s, step)) < Work(c, s)
  {
    WorkersWorkFalls(s, step.j, Apply(c, s, step).workers[step.j]);
  }

  /** Every step but a tick reduces the work left. */
  lemma WorkFalls(c: Config, s: State, step: Step)
    requires Counted(c, s) && Orderly(c, s) && Enabled(c, s, step)
    ensures var before, after := Work(c, s), Work(c, Apply(c, s, step));
      if step.Tick? then after == before + 4 else after < before
  {
    if OfProducer(step) {
      assert !s.closed;
      WorkFallsByProducers(c, s, step);
    } else if OfWorker(step) {
      WorkFallsByWorkers(c, s, step);
    } else if step.SpawnProducer? {
      TotalAppend(ProducerWork, s.producers, Waiting);
    } else if step.SpawnWorker? {
      TotalAppend(WorkerWork, s.workers, Receiving);
    }
  }

  lemma WorkerStep(c: Config, s: State, j: nat) returns (step: Step)
    requires !s.panicked && j < |s.workers| && s.workers[j] != Stopped
    requires s.workers[j] == Receiving ==> s.queue != [] || s.closed
    ensures Enabled(c, s, step) && !step.Tick?
  {
    match s.workers[j]
    case Receiving => step := if s.queue != [] then Receive(j) else SeeClosed(j);
    case Got(_) => step := Touch(j);
    case Publishing(_) => step := Publish(j, false);
    case Leaving => step := WorkerDone(j);
  }

  lemma ProducerStep(c: Config, s: State, i: nat) returns (step: Step)
    requires !s.panicked && s.cancelled && i < |s.producers| && s.producers[i] != Finished
    ensures Enabled(c, s, step) && !step.Tick?
  {
    match s.producers[i]
    case Waiting => step := StopWaiting(i);
    case Holding(_) => step := Drop(i);
    case Returning => step := ProducerDone(i);
  }

  /** After cancellation main is never stuck: some goroutine can step without waiting for a tick. */
  lemma NeverStuck(c: Config, s: State) returns (step: Step)
    requires Reachable(c, s) && s.cancelled && s.main != Exited
    ensures Enabled(c, s, step) && !step.Tick?
  {
    ReachableOrderly(c, s);
    TotalZero(Running, s.workers);
    TotalZero(Unfinished, s.producers);
    match s.main
    case Starting =>
      step := if |s.producers| < c.devices then SpawnProducer
              else if |s.workers| < c.workers then SpawnWorker
              else SpawnCloser;
    case AwaitingCancel => step := SeeCancel;
    case ShuttingDown => step := ShutdownHttp;
    case AwaitingWorkers =>
      if s.workersGroup == 0 {
        step := WorkersGone;
      } else {
        var j :| 0 <= j < |s.workers| && s.workers[j] != Stopped;
        if s.workers[j] != Receiving || s.queue != [] || s.closed {
          step := WorkerStep(c, s, j);
        } else if s.closer == Closing {
          step := Close;
        } else if s.producersGroup == 0 {
          step := ProducersGone;
        } else {
          var i :| 0 <= i < |s.producers| && s.producers[i] != Finished;
          step := ProducerStep(c, s, i);
        }
      }
  }

  function Ticks(steps: seq<Step>): nat {
    if steps == [] then 0 else (if steps[0].Tick? then 1 else 0) + Ticks(steps[1..])
  }

  /** A run is never longer than the work at its start plus five steps per tick taken. */
  lemma {:induction false} RunLength(c: Config, s: State, steps: seq<Step>)
    requires Invariant(c, s) && Feasible(c, s, steps)
    ensures |steps| + Work(c, Final(c, s, steps)) <= Work(c, s) + 5 * Ticks(steps)
    decreases |steps|
  {
    if steps == [] {
    } else {
      WorkFalls(c, s, steps[0]);
      InvariantStep(c, s, steps[0]);
      RunLength(c, Apply(c, s, steps[0]), steps[1..]);
    }
  }

  lemma {:induction false} ShutdownRun(c: Config, s: State) returns (steps: seq<Step>)
    requires Reachable(c, s) && s.cancelled
    ensures Feasible(c, s, steps) && Ticks(steps) == 0 && Final(c, s, steps).main == Exited
    decreases Work(c, s)
  {
    ReachableInvariant(c, s);
    if s.main == Exited {
      steps := [];
    } else {
      var step := NeverStuck(c, s);
      InvariantStep(c, s, step);
      WorkFalls(c, s, step);
      ReachableStep(c, s, step);
      var rest := ShutdownRun(c, Apply(c, s, step));
      steps := [step] + rest;
      assert steps[1..] == rest;
    }
  }

  /**
   From every reachable state after cancellation: the process can finish without another
   tick, and any way of running it takes at most Work(s) steps plus five per tick.
   */
  lemma ShutdownEnds(c: Config, s: State)
    requires Reachable(c, s) && s.cancelled
    ensures exists steps :: Feasible(c, s, steps) && Ticks(steps) == 0 && Final(c, s, steps).main == Exited
    ensures forall steps :: Feasible(c, s, steps) ==> |steps| <= Work(c, s) + 5 * Ticks(steps)
  {
    var finish := ShutdownRun(c, s);
    forall steps | Feasible(c, s, steps) ensures |steps| <= Work(c, s) + 5 * Ticks(steps) {
      ReachableInvariant(c, s);
      RunLength(c, s, steps);
      InvariantAlong(c, s, steps);
    }
  }
}
