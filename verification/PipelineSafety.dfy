/** What every reachable state of the pipeline keeps. */
module PipelineSafety {
  import opened Sequences
  import opened Registry
  import opened Pipeline

  function Unfinished(p: Producer): nat {
    if p.Finished? then 0 else 1
  }

  function Running(w: Worker): nat {
    if w.Stopped? then 0 else 1
  }

  /** The wait groups count the goroutines that have not reached their deferred Done. */
  ghost predicate Counted(c: Config, s: State) {
    && s.producersGroup == Total(Unfinished, s.producers)
    && s.workersGroup == Total(Running, s.workers)
    && |s.producers| <= c.devices
    && |s.workers| <= c.workers
    && (s.main != Starting ==> |s.producers| == c.devices && |s.workers| == c.workers)
    && (s.closer == NotStarted <==> s.main == Starting)
  }

  ghost predicate AllFinished(c: Config, s: State) {
    |s.producers| == c.devices && forall i :: 0 <= i < |s.producers| ==> s.producers[i] == Finished
  }

  ghost predicate AllStopped(s: State) {
    forall j :: 0 <= j < |s.workers| ==> s.workers[j] == Stopped
  }

  /** The channel is closed only by the closer, once, and only after every producer is done. */
  ghost predicate Orderly(c: Config, s: State) {
    && !s.panicked
    && (s.closer == Closing || s.closer == Done ==> AllFinished(c, s))
    && (s.closed <==> s.closer == Done)
    && s.log.closes == (if s.closed then 1 else 0)
    && (forall i :: 0 <= i < |s.producers| ==>
          s.producers[i] == Returning || s.producers[i] == Finished ==> s.cancelled)
    && (forall j :: 0 <= j < |s.workers| ==>
          s.workers[j] == Leaving || s.workers[j] == Stopped ==> s.closed && s.queue == [])
    && (s.main != Starting && s.main != AwaitingCancel ==> s.cancelled)
    && (s.main == Exited ==> AllStopped(s))
  }

  predicate OfProducer(step: Step) {
    step.Tick? || step.Send? || step.StopWaiting? || step.Drop? || step.ProducerDone?
  }

  predicate OfWorker(step: Step) {
    step.Receive? || step.SeeClosed? || step.Touch? || step.Publish? || step.WorkerDone?
  }

  lemma CountedByProducers(c: Config, s: State, step: Step)
    requires Counted(c, s) && Enabled(c, s, step) && OfProducer(step)
    ensures Counted(c, Apply(c, s, step))
  {
    TotalUpdate(Unfinished, s.producers, step.i, Apply(c, s, step).producers[step.i]);
  }

  lemma CountedByWorkers(c: Config, s: State, step: Step)
    requires Counted(c, s) && Enabled(c, s, step) && OfWorker(step)
    ensures Counted(c, Apply(c, s, step))
  {
    TotalUpdate(Running, s.workers, step.j, Apply(c, s, step).workers[step.j]);
  }

  lemma CountedStep(c: Config, s: State, step: Step)
    requires Counted(c, s) && Enabled(c, s, step)
    ensures Counted(c, Apply(c, s, step))
  {
    if OfProducer(step) {
      CountedByProducers(c, s, step);
    } else if OfWorker(step) {
      CountedByWorkers(c, s, step);
    } else if step.SpawnProducer? {
      TotalAppend(Unfinished, s.producers, Waiting);
    } else if step.SpawnWorker? {
      TotalAppend(Running, s.workers, Receiving);
    }
  }

  lemma OrderlyByProducers(c: Config, s: State, step: Step)
    requires Counted(c, s) && Orderly(c, s) && Enabled(c, s, step) && OfProducer(step)
    ensures Orderly(c, Apply(c, s, step))
  {
    hide Total, Drawn;
    TotalZero(Unfinished, s.producers);
  }

  lemma OrderlyByWorkers(c: Config, s: State, step: Step)
    requires Counted(c, s) && Orderly(c, s) && Enabled(c, s, step) && OfWorker(step)
    ensures Orderly(c, Apply(c, s, step))
  {
    hide Total, Recorded;
    TotalZero(Running, s.workers);
  }

  /** The steps that wait for a whole group. */
  predicate OfGroup(step: Step) {
    step.ProducersGone? || step.WorkersGone?
  }

  lemma OrderlyByGroups(c: Config, s: State, step: Step)
    requires Counted(c, s) && Orderly(c, s) && Enabled(c, s, step) && OfGroup(step)
    ensures Orderly(c, Apply(c, s, step))
  {
    hide Total;
    TotalZero(Unfinished, s.producers);
    TotalZero(Running, s.workers);
  }

  lemma OrderlyByMain(c: Config, s: State, step: Step)
    requires Counted(c, s) && Orderly(c, s) && Enabled(c, s, step)
    requires !OfProducer(step) && !OfWorker(step) && !OfGroup(step)
    ensures Orderly(c, Apply(c, s, step))
  {
    hide Total;
  }

  lemma OrderlyStep(c: Config, s: State, step: Step)
    requires Counted(c, s) && Orderly(c, s) && Enabled(c, s, step)
    ensures Orderly(c, Apply(c, s, step))
  {
    hide *;
    if OfProducer(step) {
      OrderlyByProducers(c, s, step);
    } else if OfWorker(step) {
      OrderlyByWorkers(c, s, step);
    } else if OfGroup(step) {
      OrderlyByGroups(c, s, step);
    } else {
      OrderlyByMain(c, s, step);
    }
  }

  function InHand(p: Producer): seq<TelemetryEvent> {
    if p.Holding? then [p.event] else []
  }

  function Held(p: Producer): multiset<TelemetryEvent> {
    multiset(InHand(p))
  }

  function InWork(w: Worker): seq<TelemetryEvent> {
    if w.Got? then [w.event] else []
  }

  function Untouched(w: Worker): multiset<TelemetryEvent> {
    multiset(InWork(w))
  }

  function InPublish(w: Worker): seq<TelemetryEvent> {
    if w.Publishing? then [w.event] else []
  }

  function BeingPublished(w: Worker): multiset<TelemetryEvent> {
    multiset(InPublish(w))
  }

  /** Every tick is in a producer's hand, sent, or dropped. */
  ghost predicate TicksAccounted(s: State) {
    multiset(s.log.drawn) == Gather(Held, s.producers) + (multiset(s.log.sent) + multiset(s.log.dropped))
  }

  /** Every receive is in a worker's hand or has touched the registry. */
  ghost predicate ReceivesAccounted(s: State) {
    multiset(s.log.received) == Gather(Untouched, s.workers) + multiset(s.log.touched)
  }

  /** Every touch is being published, was published or failed to be. */
  ghost predicate PublishesAccounted(s: State) {
    multiset(s.log.touched)
    == Gather(BeingPublished, s.workers) + (multiset(s.log.published) + multiset(s.log.failed))
  }

  /** The channel is first-in first-out and bounded; the registry replays the touches. */
  ghost predicate Queued(s: State) {
    && s.log.sent == s.log.received + s.queue
    && |s.queue| <= CAPACITY
    && s.registry == Replay(s.log.touched)
  }

  /** What enters a producer's hand is a tick; what leaves it is sent or dropped. */
  lemma HandMoves(s: State, t: State, i: nat, sent: seq<TelemetryEvent>, dropped: seq<TelemetryEvent>)
    requires TicksAccounted(s)
    requires i < |s.producers| == |t.producers| && t.producers == s.producers[i := t.producers[i]]
    requires t.log.drawn == s.log.drawn + InHand(t.producers[i])
    requires t.log.sent == s.log.sent + sent && t.log.dropped == s.log.dropped + dropped
    requires sent + dropped == InHand(s.producers[i])
    ensures TicksAccounted(t)
  {
    GatherUpdate(Held, s.producers, i, t.producers[i]);
    var settled, moved := multiset(s.log.sent) + multiset(s.log.dropped), multiset(sent) + multiset(dropped);
    assert moved == multiset(sent + dropped);
    Rebalance(multiset(s.log.drawn), Gather(Held, s.producers), settled,
              Gather(Held, t.producers), Held(s.producers[i]), Held(t.producers[i]),
              Held(t.producers[i]), moved);
    Regroup(multiset(s.log.sent), multiset(s.log.dropped), multiset(sent), multiset(dropped));
    assert multiset(t.log.drawn) == multiset(s.log.drawn) + Held(t.producers[i]);
  }

  lemma Regroup(a: multiset<TelemetryEvent>, b: multiset<TelemetryEvent>, x: multiset<TelemetryEvent>,
      y: multiset<TelemetryEvent>)
    ensures (a + x) + (b + y) == (a + b) + (x + y)
  {
  }

  lemma TicksAccountedByTick(c: Config, s: State, step: Step)
    requires TicksAccounted(s) && Enabled(c, s, step) && step.Tick?
    ensures TicksAccounted(Apply(c, s, step))
  {
    var t := Apply(c, s, step);
    assert InHand(s.producers[step.i]) == [] + [];
    assert t.log.sent == s.log.sent + [] && t.log.dropped == s.log.dropped + [];
    HandMoves(s, t, step.i, [], []);
  }

  lemma TicksAccountedBySend(c: Config, s: State, step: Step)
    requires TicksAccounted(s) && Enabled(c, s, step) && step.Send? && !s.closed
    ensures TicksAccounted(Apply(c, s, step))
  {
    var t, sent := Apply(c, s, step), InHand(s.producers[step.i]);
    assert InHand(t.producers[step.i]) == [] && sent + [] == sent;
    assert t.log.drawn == s.log.drawn + [] && t.log.dropped == s.log.dropped + [];
    HandMoves(s, t, step.i, sent, []);
  }

  lemma TicksAccountedByDrop(c: Config, s: State, step: Step)
    requires TicksAccounted(s) && Enabled(c, s, step) && step.Drop?
    ensures TicksAccounted(Apply(c, s, step))
  {
    var t, dropped := Apply(c, s, step), InHand(s.producers[step.i]);
    assert InHand(t.producers[step.i]) == [] && [] + dropped == dropped;
    assert t.log.drawn == s.log.drawn + [] && t.log.sent == s.log.sent + [];
    HandMoves(s, t, step.i, [], dropped);
  }

  lemma TicksAccountedByStopping(c: Config, s: State, step: Step)
    requires TicksAccounted(s) && Enabled(c, s, step) && (step.StopWaiting? || step.ProducerDone?)
    ensures TicksAccounted(Apply(c, s, step))
  {
    var t := Apply(c, s, step);
    assert InHand(s.producers[step.i]) == InHand(t.producers[step.i]) == [] + [];
    assert t.log.drawn == s.log.drawn + [];
    assert t.log.sent == s.log.sent + [] && t.log.dropped == s.log.dropped + [];
    HandMoves(s, t, step.i, [], []);
  }

  lemma TicksAccountedStep(c: Config, s: State, step: Step)
    requires !s.closed || !step.Send?
    requires TicksAccounted(s) && Enabled(c, s, step)
    ensures TicksAccounted(Apply(c, s, step))
  {
    match step
    case SpawnProducer => GatherAppend(Held, s.producers, Waiting);
    case Tick(_, _, _) => TicksAccountedByTick(c, s, step);
    case Send(_) => TicksAccountedBySend(c, s, step);
    case Drop(_) => TicksAccountedByDrop(c, s, step);
    case StopWaiting(_) => TicksAccountedByStopping(c, s, step);
    case ProducerDone(_) => TicksAccountedByStopping(c, s, step);
    case _ =>
  }

  /** What enters a worker's hand is a receive; what leaves it is a touch. */
  lemma WorkMoves(s: State, t: State, j: nat)
    requires ReceivesAccounted(s)
    requires j < |s.workers| == |t.workers| && t.workers == s.workers[j := t.workers[j]]
    requires t.log.received == s.log.received + InWork(t.workers[j])
    requires t.log.touched == s.log.touched + InWork(s.workers[j])
    ensures ReceivesAccounted(t)
  {
    GatherUpdate(Untouched, s.workers, j, t.workers[j]);
    Rebalance(multiset(s.log.received), Gather(Untouched, s.workers), multiset(s.log.touched),
              Gather(Untouched, t.workers), Untouched(s.workers[j]), Untouched(t.workers[j]),
              Untouched(t.workers[j]), Untouched(s.workers[j]));
  }

  lemma ReceivesAccountedByReceive(c: Config, s: State, step: Step)
    requires ReceivesAccounted(s) && Enabled(c, s, step) && step.Receive?
    ensures ReceivesAccounted(Apply(c, s, step))
  {
    var t := Apply(c, s, step);
    assert InWork(s.workers[step.j]) == [] && t.log.touched == s.log.touched + [];
    WorkMoves(s, t, step.j);
  }

  lemma ReceivesAccountedByTouch(c: Config, s: State, step: Step)
    requires ReceivesAccounted(s) && Enabled(c, s, step) && step.Touch?
    ensures ReceivesAccounted(Apply(c, s, step))
  {
    var t := Apply(c, s, step);
    assert InWork(t.workers[step.j]) == [] && t.log.received == s.log.received + [];
    WorkMoves(s, t, step.j);
  }

  /** A worker that has nothing in hand before and after changes neither side. */
  lemma WorkStays(s: State, t: State, j: nat)
    requires ReceivesAccounted(s)
    requires j < |s.workers| == |t.workers| && t.workers == s.workers[j := t.workers[j]]
    requires !s.workers[j].Got? && !t.workers[j].Got?
    requires t.log.received == s.log.received && t.log.touched == s.log.touched
    ensures ReceivesAccounted(t)
  {
    assert t.log.received == s.log.received + [] && t.log.touched == s.log.touched + [];
    WorkMoves(s, t, j);
  }

  lemma ReceivesAccountedElsewhere(c: Config, s: State, step: Step)
    requires ReceivesAccounted(s) && Enabled(c, s, step)
    requires step.SeeClosed? || step.Publish? || step.WorkerDone?
    ensures ReceivesAccounted(Apply(c, s, step))
  {
    hide ReceivesAccounted;
    WorkStays(s, Apply(c, s, step), step.j);
  }

  lemma ReceivesAccountedStep(c: Config, s: State, step: Step)
    requires ReceivesAccounted(s) && Enabled(c, s, step)
    ensures ReceivesAccounted(Apply(c, s, step))
  {
    match step
    case SpawnWorker => GatherAppend(Untouched, s.workers, Receiving);
    case Receive(_) => ReceivesAccountedByReceive(c, s, step);
    case Touch(_) => ReceivesAccountedByTouch(c, s, step);
    case SeeClosed(_) => ReceivesAccountedElsewhere(c, s, step);
    case Publish(_, _) => ReceivesAccountedElsewhere(c, s, step);
    case WorkerDone(_) => ReceivesAccountedElsewhere(c, s, step);
    case _ =>
  }

  /** What enters publishing is a touch; what leaves it was published or failed. */
  lemma PublishMoves(s: State, t: State, j: nat, published: seq<TelemetryEvent>, failed: seq<TelemetryEvent>)
    requires PublishesAccounted(s)
    requires j < |s.workers| == |t.workers| && t.workers == s.workers[j := t.workers[j]]
    requires t.log.touched == s.log.touched + InPublish(t.workers[j])
    requires t.log.published == s.log.published + published && t.log.failed == s.log.failed + failed
    requires published + failed == InPublish(s.workers[j])
    ensures PublishesAccounted(t)
  {
    GatherUpdate(BeingPublished, s.workers, j, t.workers[j]);
    var settled, moved := multiset(s.log.published) + multiset(s.log.failed), multiset(published) + multiset(failed);
    assert moved == multiset(published + failed);
    Rebalance(multiset(s.log.touched), Gather(BeingPublished, s.workers), settled,
              Gather(BeingPublished, t.workers), BeingPublished(s.workers[j]), BeingPublished(t.workers[j]),
              BeingPublished(t.workers[j]), moved);
    Regroup(multiset(s.log.published), multiset(s.log.failed), multiset(published), multiset(failed));
    assert multiset(t.log.touched) == multiset(s.log.touched) + BeingPublished(t.workers[j]);
  }

  lemma PublishesAccountedByPublish(c: Config, s: State, step: Step)
    requires PublishesAccounted(s) && Enabled(c, s, step) && step.Publish?
    ensures PublishesAccounted(Apply(c, s, step))
  {
    var t, e := Apply(c, s, step), InPublish(s.workers[step.j]);
    assert InPublish(t.workers[step.j]) == [];
    assert t.log.touched == s.log.touched + [];
    if step.ok {
      assert t.log.failed == s.log.failed + [] && e + [] == e;
      PublishMoves(s, t, step.j, e, []);
    } else {
      assert t.log.published == s.log.published + [] && [] + e == e;
      PublishMoves(s, t, step.j, [], e);
    }
  }

  lemma PublishesAccountedElsewhere(c: Config, s: State, step: Step)
    requires PublishesAccounted(s) && Enabled(c, s, step) && OfWorker(step) && !step.Publish?
    ensures PublishesAccounted(Apply(c, s, step))
  {
    var t := Apply(c, s, step);
    assert t.log.published == s.log.published + [] && t.log.failed == s.log.failed + [];
    assert t.log.touched == s.log.touched + InPublish(t.workers[step.j]);
    assert InPublish(s.workers[step.j]) == [] + [];
    PublishMoves(s, t, step.j, [], []);
  }

  lemma PublishesAccountedStep(c: Config, s: State, step: Step)
    requires PublishesAccounted(s) && Enabled(c, s, step)
    ensures PublishesAccounted(Apply(c, s, step))
  {
    if step.SpawnWorker? {
      GatherAppend(BeingPublished, s.workers, Receiving);
    } else if step.Publish? {
      PublishesAccountedByPublish(c, s, step);
    } else if OfWorker(step) {
      PublishesAccountedElsewhere(c, s, step);
    }
  }

  lemma QueuedByTouch(c: Config, s: State, step: Step)
    requires Queued(s) && Enabled(c, s, step) && step.Touch?
    ensures Queued(Apply(c, s, step))
  {
    ReplayAppend(s.log.touched, s.workers[step.j].event);
  }

  lemma QueuedByReceive(c: Config, s: State, step: Step)
    requires Queued(s) && Enabled(c, s, step) && step.Receive?
    ensures Queued(Apply(c, s, step))
  {
    assert s.queue == [s.queue[0]] + s.queue[1..];
    Associative(s.log.received, [s.queue[0]], s.queue[1..]);
  }

  lemma QueuedBySend(c: Config, s: State, step: Step)
    requires Queued(s) && Enabled(c, s, step) && step.Send?
    ensures Queued(Apply(c, s, step))
  {
    Associative(s.log.received, s.queue, [s.producers[step.i].event]);
  }

  lemma QueuedStep(c: Config, s: State, step: Step)
    requires Queued(s) && Enabled(c, s, step)
    ensures Queued(Apply(c, s, step))
  {
    match step
    case Touch(_) => QueuedByTouch(c, s, step);
    case Receive(_) => QueuedByReceive(c, s, step);
    case Send(_) => QueuedBySend(c, s, step);
    case _ =>
  }

  /** No event is lost, duplicated or invented between its tick and its publish. */
  ghost predicate Conserved(s: State) {
    TicksAccounted(s) && ReceivesAccounted(s) && PublishesAccounted(s) && Queued(s)
  }

  lemma ConservedStep(c: Config, s: State, step: Step)
    requires !s.closed || !step.Send?
    requires Conserved(s) && Enabled(c, s, step)
    ensures Conserved(Apply(c, s, step))
  {
    TicksAccountedStep(c, s, step);
    ReceivesAccountedStep(c, s, step);
    PublishesAccountedStep(c, s, step);
    QueuedStep(c, s, step);
  }

  function Of(i: nat, events: seq<TelemetryEvent>): seq<TelemetryEvent> {
    Filter(OfDevice(DeviceName(i)), events)
  }

  /** One device's ticks, in order, are its sends, then the event in hand or the one dropped. */
  ghost predicate InOrder(s: State, i: nat)
    requires i < |s.producers|
  {
    && Of(i, s.log.drawn) == Of(i, s.log.sent) + InHand(s.producers[i]) + Of(i, s.log.dropped)
    && |Of(i, s.log.dropped)| <= 1
    && (Of(i, s.log.dropped) != [] ==> s.producers[i] == Returning || s.producers[i] == Finished)
    && (s.producers[i].Holding? ==> s.producers[i].event.device == DeviceName(i))
  }

  ghost predicate DeviceOrder(s: State) {
    && (forall i :: 0 <= i < |s.producers| ==> InOrder(s, i))
    && (forall i: nat :: |s.producers| <= i ==> Of(i, s.log.drawn) == Of(i, s.log.sent) == Of(i, s.log.dropped) == [])
    && (s.log.dropped != [] ==> s.cancelled)
  }

  lemma OfAppend(i: nat, events: seq<TelemetryEvent>, e: TelemetryEvent, owner: nat)
    requires e.device == DeviceName(owner)
    ensures Of(i, events + [e]) == if i == owner then Of(i, events) + [e] else Of(i, events)
  {
    FilterAppend(OfDevice(DeviceName(i)), events, e);
    if DeviceName(i) == DeviceName(owner) {
      DeviceNamesDiffer(i, owner);
    }
  }

  /** A step that adds to at most one of the logs, for the device it belongs to. */
  lemma DeviceOrderMoves(s: State, t: State, i: nat)
    requires DeviceOrder(s) && i < |s.producers| == |t.producers|
    requires forall k: nat :: k != i ==>
      Of(k, t.log.drawn) == Of(k, s.log.drawn) && Of(k, t.log.sent) == Of(k, s.log.sent)
          && Of(k, t.log.dropped) == Of(k, s.log.dropped)
    requires forall k :: 0 <= k < |s.producers| && k != i ==> t.producers[k] == s.producers[k]
    requires InOrder(t, i)
    requires t.log.dropped != [] ==> t.cancelled
    ensures DeviceOrder(t)
  {
    forall k | 0 <= k < |t.producers| ensures InOrder(t, k) {
      assert InOrder(s, k);
    }
  }

  lemma DeviceOrderByTick(c: Config, s: State, step: Step)
    requires DeviceOrder(s) && Enabled(c, s, step) && step.Tick?
    ensures DeviceOrder(Apply(c, s, step))
  {
    assert InOrder(s, step.i);
    forall k: nat { OfAppend(k, s.log.drawn, Drawn(step.i, step.value, step.at), step.i); }
    DeviceOrderMoves(s, Apply(c, s, step), step.i);
  }

  lemma DeviceOrderBySend(c: Config, s: State, step: Step)
    requires !s.closed && DeviceOrder(s) && Enabled(c, s, step) && step.Send?
    ensures DeviceOrder(Apply(c, s, step))
  {
    assert InOrder(s, step.i);
    forall k: nat { OfAppend(k, s.log.sent, s.producers[step.i].event, step.i); }
    DeviceOrderMoves(s, Apply(c, s, step), step.i);
  }

  lemma DeviceOrderByDrop(c: Config, s: State, step: Step)
    requires DeviceOrder(s) && Enabled(c, s, step) && step.Drop?
    ensures DeviceOrder(Apply(c, s, step))
  {
    assert InOrder(s, step.i);
    forall k: nat { OfAppend(k, s.log.dropped, s.producers[step.i].event, step.i); }
    DeviceOrderMoves(s, Apply(c, s, step), step.i);
  }

  lemma DeviceOrderBySpawn(c: Config, s: State, step: Step)
    requires DeviceOrder(s) && Enabled(c, s, step) && step.SpawnProducer?
    ensures DeviceOrder(Apply(c, s, step))
  {
    var t := Apply(c, s, step);
    forall k | 0 <= k < |t.producers| ensures InOrder(t, k) {
      if k < |s.producers| {
        assert InOrder(s, k);
      } else {
        assert Of(k, s.log.drawn) == [];
      }
    }
  }

  /** A step that touches none of the three logs and no event in hand. */
  lemma DeviceOrderElsewhere(s: State, t: State)
    requires DeviceOrder(s)
    requires t.log.drawn == s.log.drawn && t.log.sent == s.log.sent && t.log.dropped == s.log.dropped
    requires |t.producers| == |s.producers|
    requires forall k :: 0 <= k < |s.producers| ==> InHand(t.producers[k]) == InHand(s.producers[k])
    requires forall k :: 0 <= k < |s.producers| && (s.producers[k] == Returning || s.producers[k] == Finished)
               ==> t.producers[k] == Returning || t.producers[k] == Finished
    requires s.cancelled ==> t.cancelled
    ensures DeviceOrder(t)
  {
    forall k | 0 <= k < |t.producers| ensures InOrder(t, k) {
      assert InOrder(s, k) && InHand(t.producers[k]) == InHand(s.producers[k]);
    }
  }

  lemma DeviceOrderStep(c: Config, s: State, step: Step)
    requires Orderly(c, s) && DeviceOrder(s) && Enabled(c, s, step)
    ensures DeviceOrder(Apply(c, s, step))
  {
    hide DeviceOrder;
    match step
    case Tick(_, _, _) => DeviceOrderByTick(c, s, step);
    case Send(_) => DeviceOrderBySend(c, s, step);
    case Drop(_) => DeviceOrderByDrop(c, s, step);
    case SpawnProducer => DeviceOrderBySpawn(c, s, step);
    case _ => DeviceOrderElsewhere(s, Apply(c, s, step));
  }

  /** Everything the reachable states keep. */
  ghost predicate Invariant(c: Config, s: State) {
    Counted(c, s) && Orderly(c, s) && Conserved(s) && DeviceOrder(s)
  }

  lemma InvariantStep(c: Config, s: State, step: Step)
    requires Invariant(c, s) && Enabled(c, s, step)
    ensures Invariant(c, Apply(c, s, step))
  {
    CountedStep(c, s, step);
    OrderlyStep(c, s, step);
    ConservedStep(c, s, step);
    DeviceOrderStep(c, s, step);
  }

  lemma {:induction false} InvariantAlong(c: Config, s: State, steps: seq<Step>)
    requires Invariant(c, s) && Feasible(c, s, steps)
    ensures Invariant(c, Final(c, s, steps))
    decreases |steps|
  {
    if steps == [] {
    } else {
      InvariantStep(c, s, steps[0]);
      InvariantAlong(c, Apply(c, s, steps[0]), steps[1..]);
    }
  }

  lemma ReachableInvariant(c: Config, s: State)
    requires Reachable(c, s)
    ensures Invariant(c, s)
  {
    var steps :| Feasible(c, Initial(), steps) && Final(c, Initial(), steps) == s;
    InvariantAlong(c, Initial(), steps);
  }
}
