/**
 The device gateway's goroutines as one step system: N producers, a bounded channel,
 M workers, the closer, main, two wait groups and the cancellation flag.
 One step is one communication or one wait-group operation of one goroutine; the order
 in which goroutines step, and which ready branch a select takes, is left open.
 */
module Pipeline {
  import opened Bytes
  import opened Sequences
  import opened Registry

  const CAPACITY := 100

  datatype Config = Config(devices: nat, workers: nat)

  datatype Producer = Waiting | Holding(event: TelemetryEvent) | Returning | Finished

  datatype Worker = Receiving | Got(event: TelemetryEvent) | Publishing(event: TelemetryEvent) | Leaving | Stopped

  datatype Closer = NotStarted | AwaitingProducers | Closing | Done

  datatype Main = Starting | AwaitingCancel | ShuttingDown | AwaitingWorkers | Exited

  /** What has happened so far; no step reads it. */
  datatype Log = Log(
    drawn: seq<TelemetryEvent>,
    sent: seq<TelemetryEvent>,
    dropped: seq<TelemetryEvent>,
    received: seq<TelemetryEvent>,
    touched: seq<TelemetryEvent>,
    published: seq<TelemetryEvent>,
    failed: seq<TelemetryEvent>,
    closes: nat)

  datatype State = State(
    producers: seq<Producer>,
    producersGroup: int,
    queue: seq<TelemetryEvent>,
    closed: bool,
    workers: seq<Worker>,
    workersGroup: int,
    closer: Closer,
    main: Main,
    cancelled: bool,
    registry: Devices,
    panicked: bool,
    log: Log)

  datatype Step =
    | SpawnProducer
    | SpawnWorker
    | SpawnCloser
    | Cancel
    | Tick(i: nat, value: real, at: int)
    | Send(i: nat)
    | StopWaiting(i: nat)
    | Drop(i: nat)
    | ProducerDone(i: nat)
    | Receive(j: nat)
    | SeeClosed(j: nat)
    | Touch(j: nat)
    | Publish(j: nat, ok: bool)
    | WorkerDone(j: nat)
    | ProducersGone
    | Close
    | SeeCancel
    | ShutdownHttp
    | WorkersGone

  function Initial(): State {
    State([], 0, [], false, [], 0, NotStarted, Starting, false, map[], false, Log([], [], [], [], [], [], [], 0))
  }

  /** fmt.Sprintf("device-%03d", i) */
  function DeviceName(i: nat): Bytes {
    Ascii("device-") + PadTo3(Digits(i))
  }

  function Drawn(i: nat, value: real, at: int): TelemetryEvent {
    TelemetryEvent(DeviceName(i), Ascii("heartbeat"), value, at)
  }

  /**
   A send is ready when the buffer has room, and also when the channel is closed: taking
   that branch of the select then panics.
   */
  predicate Enabled(c: Config, s: State, step: Step) {
    !s.panicked &&
    match step
    case SpawnProducer => s.main == Starting && |s.producers| < c.devices
    case SpawnWorker => s.main == Starting && |s.producers| == c.devices && |s.workers| < c.workers
    case SpawnCloser => s.main == Starting && |s.producers| == c.devices && |s.workers| == c.workers
    case Cancel => !s.cancelled
    case Tick(i, _, _) => i < |s.producers| && s.producers[i] == Waiting
    case Send(i) => i < |s.producers| && s.producers[i].Holding? && (s.closed || |s.queue| < CAPACITY)
    case StopWaiting(i) => i < |s.producers| && s.producers[i] == Waiting && s.cancelled
    case Drop(i) => i < |s.producers| && s.producers[i].Holding? && s.cancelled
    case ProducerDone(i) => i < |s.producers| && s.producers[i] == Returning
    case Receive(j) => j < |s.workers| && s.workers[j] == Receiving && s.queue != []
    case SeeClosed(j) => j < |s.workers| && s.workers[j] == Receiving && s.queue == [] && s.closed
    case Touch(j) => j < |s.workers| && s.workers[j].Got?
    case Publish(j, _) => j < |s.workers| && s.workers[j].Publishing?
    case WorkerDone(j) => j < |s.workers| && s.workers[j] == Leaving
    case ProducersGone => s.closer == AwaitingProducers && s.producersGroup == 0
    case Close => s.closer == Closing
    case SeeCancel => s.main == AwaitingCancel && s.cancelled
    case ShutdownHttp => s.main == ShuttingDown
    case WorkersGone => s.main == AwaitingWorkers && s.workersGroup == 0
  }

  /** A send on a closed channel, a second close and a negative wait group all panic. */
  function Apply(c: Config, s: State, step: Step): State
    requires Enabled(c, s, step)
  {
    match step
    case SpawnProducer =>
      s.(producers := s.producers + [Waiting], producersGroup := s.producersGroup + 1)
    case SpawnWorker =>
      s.(workers := s.workers + [Receiving], workersGroup := s.workersGroup + 1)
    case SpawnCloser =>
      s.(closer := AwaitingProducers, main := AwaitingCancel)
    case Cancel =>
      s.(cancelled := true)
    case Tick(i, value, at) =>
      var e := Drawn(i, value, at);
      s.(producers := s.producers[i := Holding(e)], log := s.log.(drawn := s.log.drawn + [e]))
    case Send(i) =>
      if s.closed then s.(panicked := true)
      else
        var e := s.producers[i].event;
        s.(producers := s.producers[i := Waiting], queue := s.queue + [e], log := s.log.(sent := s.log.sent + [e]))
    case StopWaiting(i) =>
      s.(producers := s.producers[i := Returning])
    case Drop(i) =>
      var e := s.producers[i].event;
      s.(producers := s.producers[i := Returning], log := s.log.(dropped := s.log.dropped + [e]))
    case ProducerDone(i) =>
      s.(producers := s.producers[i := Finished], producersGroup := s.producersGroup - 1,
         panicked := s.producersGroup - 1 < 0)
    case Receive(j) =>
      var e := s.queue[0];
      s.(workers := s.workers[j := Got(e)], queue := s.queue[1..], log := s.log.(received := s.log.received + [e]))
    case SeeClosed(j) =>
      s.(workers := s.workers[j := Leaving])
    case Touch(j) =>
      var e := s.workers[j].event;
      s.(workers := s.workers[j := Publishing(e)], registry := Recorded(s.registry, e.device, e.timestamp),
         log := s.log.(touched := s.log.touched + [e]))
    case Publish(j, ok) =>
      var e := s.workers[j].event;
      s.(workers := s.workers[j := Receiving],
         log := if ok then s.log.(published := s.log.published + [e]) else s.log.(failed := s.log.failed + [e]))
    case WorkerDone(j) =>
      s.(workers := s.workers[j := Stopped], workersGroup := s.workersGroup - 1,
         panicked := s.workersGroup - 1 < 0)
    case ProducersGone =>
      s.(closer := Closing)
    case Close =>
      s.(closer := Done, closed := true, panicked := s.closed, log := s.log.(closes := s.log.closes + 1))
    case SeeCancel =>
      s.(main := ShuttingDown)
    case ShutdownHttp =>
      s.(main := AwaitingWorkers)
    case WorkersGone =>
      s.(main := Exited)
  }

  /** The steps can be taken one after the other from s. */
  predicate Feasible(c: Config, s: State, steps: seq<Step>)
    decreases |steps|
  {
    steps == [] || (Enabled(c, s, steps[0]) && Feasible(c, Apply(c, s, steps[0]), steps[1..]))
  }

  function Final(c: Config, s: State, steps: seq<Step>): State
    requires Feasible(c, s, steps)
    decreases |steps|
  {
    if steps == [] then s else Final(c, Apply(c, s, steps[0]), steps[1..])
  }

  /** Some interleaving leads from the start of main to s. */
  ghost predicate Reachable(c: Config, s: State) {
    exists steps :: Feasible(c, Initial(), steps) && Final(c, Initial(), steps) == s
  }

  lemma RunStartsWith(c: Config, s: State, step: Step, rest: seq<Step>)
    requires Enabled(c, s, step)
    ensures Feasible(c, s, [step] + rest) <==> Feasible(c, Apply(c, s, step), rest)
    ensures Feasible(c, Apply(c, s, step), rest) ==> Final(c, s, [step] + rest) == Final(c, Apply(c, s, step), rest)
  {
    assert ([step] + rest)[1..] == rest;
  }

  lemma {:induction false} RunsCompose(c: Config, s: State, first: seq<Step>, second: seq<Step>)
    requires Feasible(c, s, first) && Feasible(c, Final(c, s, first), second)
    ensures Feasible(c, s, first + second)
    ensures Final(c, s, first + second) == Final(c, Final(c, s, first), second)
    decreases |first|
  {
    hide Enabled, Apply;
    if first == [] {
      assert first + second == second;
    } else {
      var step, rest := first[0], first[1..];
      RunsCompose(c, Apply(c, s, step), rest, second);
      assert first + second == [step] + (rest + second);
      RunStartsWith(c, s, step, rest + second);
    }
  }

  lemma ReachableThen(c: Config, s: State, steps: seq<Step>)
    requires Reachable(c, s) && Feasible(c, s, steps)
    ensures Reachable(c, Final(c, s, steps))
  {
    var first :| Feasible(c, Initial(), first) && Final(c, Initial(), first) == s;
    RunsCompose(c, Initial(), first, steps);
  }

  /** Different producers report under different device ids. */
  lemma DeviceNamesDiffer(i: nat, j: nat)
    requires DeviceName(i) == DeviceName(j)
    ensures i == j
  {
    var prefix := Ascii("device-");
    assert PadTo3(Digits(i)) == DeviceName(i)[|prefix|..];
    assert PadTo3(Digits(j)) == DeviceName(j)[|prefix|..];
    PaddingKeepsNumeral(Digits(i));
    PaddingKeepsNumeral(Digits(j));
    NumeralOfDigits(i);
    NumeralOfDigits(j);
  }

  /** A device's name: "device-" and its number in at least three digits, zeros in front. */
  lemma DeviceNameForm(i: nat)
    ensures |DeviceName(i)| >= 10 && DeviceName(i)[..7] == [100, 101, 118, 105, 99, 101, 45]
    ensures forall b :: b in DeviceName(i)[7..] ==> IsDigit(b)
    ensures Numeral(DeviceName(i)[7..]) == i
    ensures |DeviceName(i)| > 10 ==> DeviceName(i)[7] != 48
  {
    var d := Digits(i);
    assert Ascii("device-") == [100, 101, 118, 105, 99, 101, 45];
    assert DeviceName(i)[7..] == PadTo3(d);
    PaddingKeepsNumeral(d);
    PaddingExactly(d);
    NumeralOfDigits(i);
    NoLeadingZero(i);
  }

  /** What a tick reports: its own device, a heartbeat, the value drawn and the tick's time. */
  lemma TickReports(c: Config, s: State, i: nat, value: real, at: int)
    requires Enabled(c, s, Tick(i, value, at))
    ensures var p := Apply(c, s, Tick(i, value, at)).producers[i];
      && p.Holding?
      && p.event.device == DeviceName(i)
      && p.event.kind == [104, 101, 97, 114, 116, 98, 101, 97, 116]
      && p.event.value == value
      && p.event.timestamp == at
  {
    assert Ascii("heartbeat") == [104, 101, 97, 114, 116, 98, 101, 97, 116];
  }

  /**
   What a producer's selects leave open: waiting, it may get a tick at any time and stop once
   cancelled; holding an event, it may send while there is room, cancelled or not, and drop it
   once cancelled.
   */
  lemma ProducerChoices(c: Config, s: State, i: nat, value: real, at: int)
    requires !s.panicked && i < |s.producers|
    ensures s.producers[i].Waiting? ==>
      Enabled(c, s, Tick(i, value, at)) && (Enabled(c, s, StopWaiting(i)) <==> s.cancelled)
    ensures s.producers[i].Holding? ==>
      && (Enabled(c, s, Drop(i)) <==> s.cancelled)
      && (!s.closed ==> (Enabled(c, s, Send(i)) <==> |s.queue| < 100))
  {
  }

  /** A worker receives whatever is buffered, closed or not, and leaves only a closed and empty channel. */
  lemma WorkerChoices(c: Config, s: State, j: nat)
    requires !s.panicked && j < |s.workers|
    ensures s.workers[j].Receiving? ==>
      (Enabled(c, s, Receive(j)) <==> s.queue != []) && (Enabled(c, s, SeeClosed(j)) <==> s.queue == [] && s.closed)
    ensures s.workers[j].Publishing? ==> Enabled(c, s, Publish(j, true)) && Enabled(c, s, Publish(j, false))
  {
  }

  /** A publish that succeeds is counted as published, one that fails as failed, and the worker goes on. */
  lemma PublishReports(c: Config, s: State, j: nat, ok: bool)
    requires Enabled(c, s, Publish(j, ok))
    ensures var t := Apply(c, s, Publish(j, ok));
      && t.workers[j] == Receiving
      && t.log.published == s.log.published + (if ok then [s.workers[j].event] else [])
      && t.log.failed == s.log.failed + (if ok then [] else [s.workers[j].event])
  {
  }
}
