/** Lossless shutdown, conservation and channel safety over every run. */
module PipelineDrain {
  import opened Sequences
  import opened Registry
  import opened Pipeline
  import opened PipelineSafety

  lemma ReachableOrderly(c: Config, s: State)
    requires Reachable(c, s)
    ensures Counted(c, s) && Orderly(c, s)
  {
    ReachableInvariant(c, s);
  }

  /** No reachable state has panicked, and none lets a producer send on the closed channel. */
  lemma ChannelSafety(c: Config, s: State, i: nat)
    requires Reachable(c, s)
    ensures !s.panicked
    ensures s.closed ==> AllFinished(c, s)
    ensures s.log.closes <= 1
    ensures Enabled(c, s, Send(i)) ==> !s.closed && |s.queue| < 100
    ensures Enabled(c, s, Close) ==> !s.closed
  {
    ReachableOrderly(c, s);
  }

  /** The books of every reachable state balance, and loss is confined to shutdown. */
  lemma EventConservation(c: Config, s: State)
    requires Reachable(c, s)
    ensures multiset(s.log.drawn) == Gather(Held, s.producers) + (multiset(s.log.sent) + multiset(s.log.dropped))
    ensures multiset(s.log.sent) == multiset(s.queue) + Gather(Untouched, s.workers) + multiset(s.log.touched)
    ensures !s.cancelled ==> s.log.dropped == []
    ensures forall i: nat :: |Of(i, s.log.dropped)| <= 1
    ensures 0 <= |s.log.sent| - |s.log.touched| <= 100 + c.workers
  {
    ReachableInvariant(c, s);
    forall i: nat ensures |Of(i, s.log.dropped)| <= 1 {
      if i < |s.producers| {
        assert InOrder(s, i);
      }
    }
    var inWorkers := Gather(Untouched, s.workers);
    assert multiset(s.log.sent) == multiset(s.log.received) + multiset(s.queue);
    GatherSize(Untouched, s.workers);
    assert |multiset(s.log.received)| == |s.log.received|;
    assert |multiset(s.log.touched)| == |s.log.touched|;
    assert |inWorkers + multiset(s.log.touched)| == |inWorkers| + |multiset(s.log.touched)|;
  }

  /** Workers receive in the order of sending, whatever their number, and try to publish each touched event once. */
  lemma FirstInFirstOut(c: Config, s: State)
    requires Reachable(c, s)
    ensures s.log.sent == s.log.received + s.queue
    ensures multiset(s.log.touched)
         == Gather(BeingPublished, s.workers) + (multiset(s.log.published) + multiset(s.log.failed))
    ensures forall i: nat :: Of(i, s.log.sent) <= Of(i, s.log.drawn)
  {
    ReachableInvariant(c, s);
    forall i: nat ensures Of(i, s.log.sent) <= Of(i, s.log.drawn) {
      if i < |s.producers| {
        assert InOrder(s, i);
      }
    }
  }

  /** Nothing that was sent is still on its way. */
  ghost predicate Drained(c: Config, s: State) {
    && AllFinished(c, s)
    && s.closed
    && s.queue == []
    && multiset(s.log.touched) == multiset(s.log.sent)
  }

  lemma DrainedWhenWorkersStop(c: Config, s: State)
    requires Reachable(c, s) && s.main == Exited && c.workers > 0
    ensures Drained(c, s)
  {
    ReachableInvariant(c, s);
    assert s.workers[0] == Stopped;
    forall w | w in s.workers ensures Untouched(w) == multiset{} {
      var j :| 0 <= j < |s.workers| && s.workers[j] == w;
    }
    GatherEmpty(Untouched, s.workers);
  }

  /** When main gets past workers.Wait, each device's count is the number of its successful sends. */
  lemma LosslessDrain(c: Config, s: State, i: nat)
    requires Reachable(c, s) && s.main == Exited && c.workers > 0 && i < c.devices
    ensures Drained(c, s)
    ensures var sends := |Of(i, s.log.sent)|;
      && (DeviceName(i) in s.registry <==> sends > 0)
      && (sends > 0 ==> s.registry[DeviceName(i)].eventCount == sends)
    ensures |Of(i, s.log.drawn)| - 1 <= |Of(i, s.log.sent)| <= |Of(i, s.log.drawn)|
  {
    DrainedWhenWorkersStop(c, s);
    ReachableInvariant(c, s);
    assert InOrder(s, i);
    ReplayCounts(s.log.touched, DeviceName(i));
    FilterOfPermutation(OfDevice(DeviceName(i)), s.log.touched, s.log.sent);
  }

  /** The first n producers and m workers launched, none of which has run. */
  function Launched(n: nat, m: nat): State {
    Initial().(
      producers := seq(n, i => Waiting), producersGroup := n,
      workers := seq(m, j => Receiving), workersGroup := m)
  }

  /** Main's start-up without interference: all goroutines launched, none has run. */
  function Started(c: Config): State {
    Launched(c.devices, c.workers).(closer := AwaitingProducers, main := AwaitingCancel)
  }

  lemma {:induction false} LaunchReachable(c: Config, n: nat, m: nat)
    requires n <= c.devices && m <= c.workers && (m > 0 ==> n == c.devices)
    ensures Reachable(c, Launched(n, m))
    decreases n + m
  {
    if n == 0 && m == 0 {
      assert Launched(0, 0) == Initial();
      assert Feasible(c, Initial(), []) && Final(c, Initial(), []) == Initial();
    } else if m > 0 {
      LaunchReachable(c, n, m - 1);
      var before := Launched(n, m - 1);
      assert seq(m - 1, j => Receiving) + [Receiving] == seq(m, j => Receiving);
      ReachableStep(c, before, SpawnWorker);
    } else {
      LaunchReachable(c, n - 1, 0);
      var before := Launched(n - 1, 0);
      assert seq(n - 1, i => Waiting) + [Waiting] == seq(n, i => Waiting);
      ReachableStep(c, before, SpawnProducer);
    }
  }

  lemma ReachableStep(c: Config, s: State, step: Step)
    requires Reachable(c, s) && Enabled(c, s, step)
    ensures Reachable(c, Apply(c, s, step))
  {
    var t, none: seq<Step> := Apply(c, s, step), [];
    assert Feasible(c, t, none) && Final(c, t, none) == t;
    RunStartsWith(c, s, step, none);
    assert [step] + none == [step];
    ReachableThen(c, s, [step]);
  }

  lemma StartedReachable(c: Config)
    ensures Reachable(c, Started(c))
  {
    LaunchReachable(c, c.devices, c.workers);
    ReachableStep(c, Launched(c.devices, c.workers), SpawnCloser);
  }

  lemma TickAndSend(c: Config, s: State, i: nat, at: int) returns (t: State)
    requires Reachable(c, s) && !s.panicked && !s.closed && |s.queue| < CAPACITY
    requires i < |s.producers| && s.producers[i] == Waiting
    ensures Reachable(c, t)
    ensures var e := Drawn(i, 0.0, at);
      t == s.(queue := s.queue + [e], log := s.log.(drawn := s.log.drawn + [e], sent := s.log.sent + [e]))
  {
    ReachableStep(c, s, Tick(i, 0.0, at));
    var held := Apply(c, s, Tick(i, 0.0, at));
    ReachableStep(c, held, Send(i));
    t := Apply(c, held, Send(i));
    assert t.producers == s.producers;
  }

  /** Without workers nothing holds main back once it is cancelled. */
  lemma ExitFrom(c: Config, s: State) returns (t: State)
    requires Reachable(c, s) && !s.panicked && !s.cancelled && s.main == AwaitingCancel && s.workersGroup == 0
    ensures Reachable(c, t) && t == s.(cancelled := true, main := Exited)
  {
    ReachableStep(c, s, Cancel);
    t := Apply(c, s, Cancel);
    ReachableStep(c, t, SeeCancel);
    t := Apply(c, t, SeeCancel);
    ReachableStep(c, t, ShutdownHttp);
    t := Apply(c, t, ShutdownHttp);
    ReachableStep(c, t, WorkersGone);
    t := Apply(c, t, WorkersGone);
  }

  /** With no workers main can be cancelled and return before any other goroutine runs. */
  lemma ExitWithoutWorkers(c: Config) returns (s: State)
    requires c.workers == 0
    ensures Reachable(c, s) && s.main == Exited && !s.closed
  {
    StartedReachable(c);
    s := ExitFrom(c, Started(c));
  }

  /** With no workers but a device main can return with an event sent and never touched. */
  lemma LossWithoutWorkers(c: Config) returns (s: State)
    requires c.workers == 0 && c.devices > 0
    ensures Reachable(c, s) && s.main == Exited && |s.log.sent| == 1 && s.log.touched == []
  {
    StartedReachable(c);
    var sent := TickAndSend(c, Started(c), 0, 0);
    s := ExitFrom(c, sent);
  }

  /** The select does not favour cancellation: an event drawn after it can still be sent. */
  lemma SentAfterCancel(c: Config, at: int) returns (s: State, t: State)
    requires c.devices > 0
    ensures Reachable(c, s) && s.cancelled && s.log.drawn == []
    ensures Reachable(c, t) && t.log.sent == [Drawn(0, 0.0, at)] && t.log.dropped == []
  {
    StartedReachable(c);
    ReachableStep(c, Started(c), Cancel);
    s := Apply(c, Started(c), Cancel);
    t := TickAndSend(c, s, 0, at);
  }

  /** Or it can be dropped: cancellation may cost each device the event in its hand. */
  lemma DroppedAfterCancel(c: Config, at: int) returns (s: State)
    requires c.devices > 0
    ensures Reachable(c, s) && s.log.dropped == [Drawn(0, 0.0, at)] && s.log.sent == []
  {
    StartedReachable(c);
    ReachableStep(c, Started(c), Tick(0, 0.0, at));
    var held := Apply(c, Started(c), Tick(0, 0.0, at));
    ReachableStep(c, held, Cancel);
    ReachableStep(c, Apply(c, held, Cancel), Drop(0));
    s := Apply(c, Apply(c, held, Cancel), Drop(0));
  }

  /** Main always returns drained if and only if there is at least one worker. */
  lemma DrainExactlyWithWorkers(c: Config)
    ensures c.workers > 0 <==> forall s :: Reachable(c, s) && s.main == Exited ==> Drained(c, s)
  {
    if c.workers > 0 {
      forall s | Reachable(c, s) && s.main == Exited ensures Drained(c, s) {
        DrainedWhenWorkersStop(c, s);
      }
    } else {
      var s := ExitWithoutWorkers(c);
      assert !Drained(c, s);
    }
  }

  /**
   The signal can come at any time, start-up included; main moves on exactly when it has come,
   the closer exactly when all producers are done, and main past its last wait exactly when all
   workers have stopped.
   */
  lemma WaitsExactly(c: Config, s: State)
    requires Reachable(c, s)
    ensures Enabled(c, s, Cancel) <==> !s.cancelled
    ensures s.main == AwaitingCancel ==> (Enabled(c, s, SeeCancel) <==> s.cancelled)
    ensures s.closer == AwaitingProducers ==> (Enabled(c, s, ProducersGone) <==> AllFinished(c, s))
    ensures s.main == AwaitingWorkers ==> (Enabled(c, s, WorkersGone) <==> AllStopped(s))
  {
    hide Total, Reachable;
    ReachableOrderly(c, s);
    TotalZero(Unfinished, s.producers);
    TotalZero(Running, s.workers);
  }
}
