/** When a device's LastSeen is the newest time seen: exactly when at most one worker runs. */
module PipelineFreshness {
  import opened Sequences
  import opened Registry
  import opened Pipeline
  import opened PipelineSafety
  import opened PipelineDrain

  ghost predicate Monotone(events: seq<TelemetryEvent>) {
    forall a, b :: 0 <= a < b < |events| ==> events[a].timestamp <= events[b].timestamp
  }

  /** Each device's ticker delivers times that never decrease. */
  ghost predicate TickersForward(s: State) {
    forall i: nat :: Monotone(Of(i, s.log.drawn))
  }

  /** Each device's LastSeen is the newest timestamp recorded for it. */
  ghost predicate Fresh(s: State) {
    forall i: nat, e :: DeviceName(i) in s.registry && e in Of(i, s.log.touched)
      ==> e.timestamp <= s.registry[DeviceName(i)].lastSeen
  }

  function InWorker(s: State): seq<TelemetryEvent> {
    if s.workers != [] && s.workers[0].Got? then [s.workers[0].event] else []
  }

  /** A single worker touches in the order it receives. */
  ghost predicate InTurn(s: State) {
    |s.workers| <= 1 && s.log.received == s.log.touched + InWorker(s)
  }

  lemma InTurnByWorker(c: Config, s: State, step: Step)
    requires c.workers <= 1 && InTurn(s) && Enabled(c, s, step) && OfWorker(step)
    ensures InTurn(Apply(c, s, step))
  {
    hide Recorded;
    assert step.j == 0 && |s.workers| == 1;
  }

  lemma InTurnStep(c: Config, s: State, step: Step)
    requires c.workers <= 1 && InTurn(s) && Enabled(c, s, step)
    ensures InTurn(Apply(c, s, step))
  {
    if OfWorker(step) {
      hide Apply, InTurn;
      InTurnByWorker(c, s, step);
    } else {
      hide Drawn;
    }
  }

  lemma {:induction false} InTurnAlong(c: Config, s: State, steps: seq<Step>)
    requires c.workers <= 1 && InTurn(s) && Feasible(c, s, steps)
    ensures InTurn(Final(c, s, steps))
    decreases |steps|
  {
    if steps == [] {
    } else {
      InTurnStep(c, s, steps[0]);
      InTurnAlong(c, Apply(c, s, steps[0]), steps[1..]);
    }
  }

  lemma RegistryReplays(c: Config, s: State)
    requires Reachable(c, s)
    ensures s.registry == Replay(s.log.touched)
  {
    ReachableInvariant(c, s);
  }

  /** LastSeen is always the time of the device's most recent touch, whatever the number of workers. */
  lemma LastSeenIsLatestTouch(c: Config, s: State, i: nat)
    requires Reachable(c, s)
    ensures var own := Of(i, s.log.touched);
      && (DeviceName(i) in s.registry <==> own != [])
      && (own != [] ==> s.registry[DeviceName(i)].lastSeen == own[|own| - 1].timestamp)
  {
    RegistryReplays(c, s);
    ReplayCounts(s.log.touched, DeviceName(i));
  }

  lemma TouchedInTickOrder(c: Config, s: State, i: nat)
    requires Reachable(c, s) && c.workers <= 1
    ensures Of(i, s.log.touched) <= Of(i, s.log.drawn)
  {
    var steps :| Feasible(c, Initial(), steps) && Final(c, Initial(), steps) == s;
    InTurnAlong(c, Initial(), steps);
    FirstInFirstOut(c, s);
    FilterConcat(OfDevice(DeviceName(i)), s.log.touched, InWorker(s));
    FilterConcat(OfDevice(DeviceName(i)), s.log.received, s.queue);
  }

  lemma FreshWithOneWorker(c: Config, s: State)
    requires Reachable(c, s) && c.workers <= 1 && TickersForward(s)
    ensures Fresh(s)
  {
    forall i: nat, e | DeviceName(i) in s.registry && e in Of(i, s.log.touched)
      ensures e.timestamp <= s.registry[DeviceName(i)].lastSeen
    {
      LastSeenIsLatestTouch(c, s, i);
      TouchedInTickOrder(c, s, i);
      var own, ticks := Of(i, s.log.touched), Of(i, s.log.drawn);
      var k :| 0 <= k < |own| && own[k] == e;
      assert Monotone(ticks);
      assert ticks[k] == own[k] && ticks[|own| - 1] == own[|own| - 1];
    }
  }

  /** With at most one worker no step moves a device's LastSeen back. */
  lemma LastSeenNeverGoesBack(c: Config, s: State, step: Step, i: nat)
    requires Reachable(c, s) && c.workers <= 1 && Enabled(c, s, step)
    requires TickersForward(Apply(c, s, step)) && DeviceName(i) in s.registry
    ensures DeviceName(i) in Apply(c, s, step).registry
    ensures s.registry[DeviceName(i)].lastSeen <= Apply(c, s, step).registry[DeviceName(i)].lastSeen
  {
    var t := Apply(c, s, step);
    ReachableStep(c, s, step);
    FreshWithOneWorker(c, t);
    LastSeenIsLatestTouch(c, s, i);
    var own := Of(i, s.log.touched);
    var latest := own[|own| - 1];
    FilterMembers(OfDevice(DeviceName(i)), s.log.touched, latest);
    FilterMembers(OfDevice(DeviceName(i)), t.log.touched, latest);
    assert latest in Of(i, t.log.touched);
  }

  /** Two workers take an event each. */
  lemma ReceiveTwo(c: Config, s: State, older: TelemetryEvent, newer: TelemetryEvent) returns (t: State)
    requires Reachable(c, s) && !s.panicked && s.queue == [older, newer]
    requires |s.workers| > 1 && s.workers[0] == s.workers[1] == Receiving
    ensures Reachable(c, t) && !t.panicked && t.workers == s.workers[0 := Got(older)][1 := Got(newer)]
    ensures t.log.drawn == s.log.drawn && t.log.touched == s.log.touched
  {
    ReachableStep(c, s, Receive(0));
    var s1 := Apply(c, s, Receive(0));
    ReachableStep(c, s1, Receive(1));
    t := Apply(c, s1, Receive(1));
  }

  /** The second worker to receive touches first. */
  lemma Overtake(c: Config, s: State, older: TelemetryEvent, newer: TelemetryEvent) returns (t: State)
    requires Reachable(c, s) && !s.panicked
    requires |s.workers| > 1 && s.workers[0] == Got(older) && s.workers[1] == Got(newer)
    ensures Reachable(c, t)
    ensures t.log.drawn == s.log.drawn && t.log.touched == s.log.touched + [newer, older]
  {
    ReachableStep(c, s, Touch(1));
    var s1 := Apply(c, s, Touch(1));
    ReachableStep(c, s1, Touch(0));
    t := Apply(c, s1, Touch(0));
  }

  lemma OvertakingRun(c: Config) returns (s: State)
    requires c.devices > 0 && c.workers > 1
    ensures Reachable(c, s)
    ensures s.log.drawn == [Drawn(0, 0.0, 1), Drawn(0, 0.0, 2)]
    ensures s.log.touched == [Drawn(0, 0.0, 2), Drawn(0, 0.0, 1)]
  {
    StartedReachable(c);
    var first := TickAndSend(c, Started(c), 0, 1);
    var second := TickAndSend(c, first, 0, 2);
    var received := ReceiveTwo(c, second, Drawn(0, 0.0, 1), Drawn(0, 0.0, 2));
    s := Overtake(c, received, Drawn(0, 0.0, 1), Drawn(0, 0.0, 2));
  }

  lemma PairOf(i: nat, first: TelemetryEvent, second: TelemetryEvent)
    requires first.device == second.device == DeviceName(0)
    ensures Of(i, [first, second]) == if i == 0 then [first, second] else []
  {
    var none: seq<TelemetryEvent> := [];
    OfAppend(i, none, first, 0);
    OfAppend(i, [first], second, 0);
    assert none + [first] == [first] && [first] + [second] == [first, second];
  }

  /** After the overtaking run the second tick's time has been overwritten by the first's. */
  lemma OvertakenIsStale(c: Config, s: State)
    requires Reachable(c, s)
    requires s.log.drawn == [Drawn(0, 0.0, 1), Drawn(0, 0.0, 2)]
    requires s.log.touched == [Drawn(0, 0.0, 2), Drawn(0, 0.0, 1)]
    ensures TickersForward(s) && !Fresh(s)
  {
    forall i: nat ensures Monotone(Of(i, s.log.drawn)) {
      PairOf(i, Drawn(0, 0.0, 1), Drawn(0, 0.0, 2));
    }
    PairOf(0, Drawn(0, 0.0, 2), Drawn(0, 0.0, 1));
    LastSeenIsLatestTouch(c, s, 0);
    var own := Of(0, s.log.touched);
    assert own[0] in own && own[0].timestamp > own[1].timestamp;
  }

  /** LastSeen stays the newest time on every run if and only if there is at most one worker. */
  lemma FreshExactlyWithOneWorker(c: Config)
    requires c.devices > 0
    ensures c.workers <= 1 <==> forall s :: Reachable(c, s) && TickersForward(s) ==> Fresh(s)
  {
    if c.workers <= 1 {
      forall s | Reachable(c, s) && TickersForward(s) ensures Fresh(s) {
        FreshWithOneWorker(c, s);
      }
    } else {
      var s := OvertakingRun(c);
      OvertakenIsStale(c, s);
    }
  }
}
