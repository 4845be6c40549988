/** The alarm store against its history: each entry is a fold over its own key's reports alone. */
module AlarmHistory {
  import opened Sequences
  import opened Alarms

  /** The store after a history of reports. */
  function Replay(history: seq<Report>): Store {
    if history == [] then map[] else Recorded(Replay(history[..|history| - 1]), history[|history| - 1])
  }

  function ForKey(key: string): Report -> bool {
    (r: Report) => Key(r.uei, r.streamId) == key
  }

  predicate RecoveryOf(r: Report) {
    IsRecovery(r.uei)
  }

  /** The last run of reports that are not recoveries, skipping the recoveries that follow it. */
  function LatestBurst(reports: seq<Report>): seq<Report> {
    if reports == [] then []
    else if RecoveryOf(reports[|reports| - 1]) then LatestBurst(reports[..|reports| - 1])
    else OpenBurst(reports)
  }

  function OpenBurst(reports: seq<Report>): seq<Report> {
    if reports == [] || RecoveryOf(reports[|reports| - 1]) then []
    else OpenBurst(reports[..|reports| - 1]) + [reports[|reports| - 1]]
  }

  ghost predicate NoneRecovers(reports: seq<Report>) {
    forall r :: r in reports ==> !RecoveryOf(r)
  }

  ghost predicate AllRecover(reports: seq<Report>) {
    forall r :: r in reports ==> RecoveryOf(r)
  }

  /** An open burst is the longest tail without a recovery. */
  lemma {:induction false} OpenBurstIsMaximal(reports: seq<Report>) returns (before: seq<Report>)
    ensures reports == before + OpenBurst(reports)
    ensures NoneRecovers(OpenBurst(reports))
    ensures before != [] ==> RecoveryOf(before[|before| - 1])
  {
    if reports == [] || RecoveryOf(reports[|reports| - 1]) {
      before := reports;
      assert before + [] == before;
    } else {
      var front, last := reports[..|reports| - 1], reports[|reports| - 1];
      before := OpenBurstIsMaximal(front);
      Associative(before, OpenBurst(front), [last]);
      assert reports == front + [last];
    }
  }

  /** The latest burst is a maximal recovery-free stretch followed by recoveries only. */
  lemma {:induction false} LatestBurstIsMaximal(reports: seq<Report>) returns (before: seq<Report>, after: seq<Report>)
    ensures reports == before + LatestBurst(reports) + after
    ensures NoneRecovers(LatestBurst(reports)) && AllRecover(after)
    ensures before != [] ==> RecoveryOf(before[|before| - 1])
    ensures LatestBurst(reports) == [] ==> before == []
  {
    if reports == [] {
      before, after := [], [];
    } else if RecoveryOf(reports[|reports| - 1]) {
      var front, last := reports[..|reports| - 1], reports[|reports| - 1];
      before, after := LatestBurstIsMaximal(front);
      Associative(before + LatestBurst(front), after, [last]);
      assert reports == front + [last];
      after := after + [last];
    } else {
      before := OpenBurstIsMaximal(reports);
      after := [];
      assert before + OpenBurst(reports) + after == before + OpenBurst(reports);
    }
  }

  /** Java's int reached by counting up from zero. */
  function Wrapped(n: nat): int32 {
    ((n + 0x8000_0000) % 0x1_0000_0000 - 0x8000_0000) as int32
  }

  /** What the entry of a key says after exactly these reports for it. */
  function Expected(key: string, reports: seq<Report>): Option<AlarmState> {
    var burst := LatestBurst(reports);
    if burst == [] then None
    else Some(AlarmState(key, burst[0].uei, burst[0].streamId, burst[|burst| - 1].message, Wrapped(|burst|),
                         RecoveryOf(reports[|reports| - 1])))
  }

  lemma WrappedStep(n: nat)
    ensures Wrapped(n + 1) == Increment(Wrapped(n))
  {
  }

  lemma RecordedElsewhere(store: Store, r: Report, key: string)
    ensures Lookup(Recorded(store, r), key)
         == if ForKey(key)(r) then Reduce(Lookup(store, key), r) else Lookup(store, key)
  {
  }

  lemma ExpectedStep(key: string, reports: seq<Report>, r: Report)
    requires ForKey(key)(r)
    ensures Expected(key, reports + [r]) == Reduce(Expected(key, reports), r)
  {
    var longer := reports + [r];
    assert longer[..|reports|] == reports;
    if !RecoveryOf(r) && reports != [] && !RecoveryOf(reports[|reports| - 1]) {
      WrappedStep(|OpenBurst(reports)|);
    } else if !RecoveryOf(r) {
      assert OpenBurst(reports) == [];
    }
  }

  /**
   After any history the entry of a key is determined by that key's reports alone: absent
   without a burst, cleared exactly when the last of them is a recovery, counting the latest
   burst (as a Java int) and carrying its last message.
   */
  lemma {:induction false} HistoryRefinement(history: seq<Report>, key: string)
    ensures Lookup(Replay(history), key) == Expected(key, Filter(ForKey(key), history))
  {
    if history == [] {
    } else {
      var front, r := history[..|history| - 1], history[|history| - 1];
      HistoryRefinement(front, key);
      assert history == front + [r];
      FilterAppend(ForKey(key), front, r);
      RecordedElsewhere(Replay(front), r, key);
      if ForKey(key)(r) {
        ExpectedStep(key, Filter(ForKey(key), front), r);
      }
    }
  }

  /** Histories that agree key by key leave the same store and the same active alarms. */
  lemma InterleavingIndependence(a: seq<Report>, b: seq<Report>)
    requires forall key :: Filter(ForKey(key), a) == Filter(ForKey(key), b)
    ensures Replay(a) == Replay(b) && Active(Replay(a)) == Active(Replay(b))
  {
    forall key ensures Lookup(Replay(a), key) == Lookup(Replay(b), key) {
      HistoryRefinement(a, key);
      HistoryRefinement(b, key);
    }
    SameStore(Replay(a), Replay(b));
  }

  lemma SameStore(a: Store, b: Store)
    requires forall key :: Lookup(a, key) == Lookup(b, key)
    ensures a == b
  {
    forall key ensures key in a <==> key in b {
      assert Lookup(a, key) == Lookup(b, key);
    }
    forall key | key in a ensures a[key] == b[key] {
      assert Lookup(a, key) == Lookup(b, key);
    }
  }

  /** The reports of one caller inside a tagged interleaving of all of them. */
  function By(caller: nat): ((nat, Report)) -> bool {
    (t: (nat, Report)) => t.0 == caller
  }

  function Untagged(tagged: seq<(nat, Report)>): seq<Report> {
    seq(|tagged|, i requires 0 <= i < |tagged| => tagged[i].1)
  }

  /** No key is reported by two different callers. */
  ghost predicate KeysSeparate(tagged: seq<(nat, Report)>) {
    forall i, j :: 0 <= i < |tagged| && 0 <= j < |tagged| && tagged[i].0 != tagged[j].0
      ==> Key(tagged[i].1.uei, tagged[i].1.streamId) != Key(tagged[j].1.uei, tagged[j].1.streamId)
  }

  lemma {:induction false} KeyReportsOfCaller(tagged: seq<(nat, Report)>, key: string, caller: nat)
    requires forall i :: 0 <= i < |tagged| && ForKey(key)(tagged[i].1) ==> tagged[i].0 == caller
    ensures Filter(ForKey(key), Untagged(tagged)) == Filter(ForKey(key), Untagged(Filter(By(caller), tagged)))
  {
    if tagged == [] {
    } else {
      var front, last := tagged[..|tagged| - 1], tagged[|tagged| - 1];
      KeyReportsOfCaller(front, key, caller);
      assert Untagged(tagged) == Untagged(front) + [last.1];
      FilterAppend(ForKey(key), Untagged(front), last.1);
      var own := Filter(By(caller), front);
      if last.0 == caller {
        assert Untagged(own + [last]) == Untagged(own) + [last.1];
        FilterAppend(ForKey(key), Untagged(own), last.1);
      }
    }
  }

  /** Callers with separate keys leave the same store however their calls interleave. */
  lemma CallersCommute(a: seq<(nat, Report)>, b: seq<(nat, Report)>)
    requires forall caller: nat :: Filter(By(caller), a) == Filter(By(caller), b)
    requires KeysSeparate(a)
    ensures Replay(Untagged(a)) == Replay(Untagged(b))
  {
    forall key ensures Filter(ForKey(key), Untagged(a)) == Filter(ForKey(key), Untagged(b)) {
      var owner := if exists i :: 0 <= i < |a| && ForKey(key)(a[i].1)
                   then var i :| 0 <= i < |a| && ForKey(key)(a[i].1); a[i].0
                   else 0;
      forall j | 0 <= j < |b| && ForKey(key)(b[j].1) ensures b[j].0 == owner {
        FilterMembers(By(b[j].0), b, b[j]);
        FilterMembers(By(b[j].0), a, b[j]);
      }
      KeyReportsOfCaller(a, key, owner);
      KeyReportsOfCaller(b, key, owner);
    }
    InterleavingIndependence(Untagged(a), Untagged(b));
  }

  /** A uei is a recovery's exactly when it is some text followed by "Recovered". */
  lemma RecoveryForm(uei: string)
    ensures IsRecovery(uei) <==> exists p :: uei == p + "Recovered"
  {
    if IsRecovery(uei) {
      assert uei == uei[..|uei| - 9] + uei[|uei| - 9..];
    }
    if p :| uei == p + "Recovered" {
      assert uei[|uei| - 9..] == "Recovered";
    }
  }

  /** A recovery leaves an absent entry absent and only marks a present one as cleared. */
  lemma RecoveryReported(store: Store, p: string, streamId: string, message: string)
    ensures var key := p + "Recovered" + ":" + streamId;
      var after := Recorded(store, Report(p + "Recovered", streamId, message));
      && (key !in store ==> after == store)
      && (key in store ==> after == store[key := store[key].(cleared := true)])
  {
    RecoveryForm(p + "Recovered");
  }

  /** Any other report leaves its alarm active with its message: a new one, or the open one counted once more. */
  lemma OtherReported(store: Store, r: Report)
    requires forall p :: r.uei != p + "Recovered"
    ensures var key := r.uei + ":" + r.streamId;
      var after := Recorded(store, r);
      && key in Active(after) && Active(after)[key] == after[key]
      && after[key].lastMessage == r.message
      && (key !in store || store[key].cleared ==>
            after == store[key := AlarmState(key, r.uei, r.streamId, r.message, 1, false)])
      && (key in store && !store[key].cleared && store[key].occurrenceCount < 0x7fff_ffff ==>
            after == store[key := store[key].(
              occurrenceCount := store[key].occurrenceCount + 1, lastMessage := r.message)])
  {
    RecoveryForm(r.uei);
  }

  lemma ActiveByLatest(history: seq<Report>, key: string)
    ensures var own := Filter(ForKey(key), history);
      key in Active(Replay(history)) <==> own != [] && !RecoveryOf(own[|own| - 1])
  {
    hide Filter, Replay, RecoveryOf, OpenBurst, Wrapped;
    var own := Filter(ForKey(key), history);
    HistoryRefinement(history, key);
    if own != [] && !RecoveryOf(own[|own| - 1]) {
      LatestBurstExactly(own);
    }
    assert key in Active(Replay(history)) <==>
      Lookup(Replay(history), key).Some? && !Lookup(Replay(history), key).value.cleared;
  }

  /** After any history an alarm is active exactly when its key's latest report is not a recovery. */
  lemma ActiveExactly(history: seq<Report>, key: string)
    ensures key in Active(Replay(history)) <==>
      exists i :: 0 <= i < |history| && Key(history[i].uei, history[i].streamId) == key
        && (forall p :: history[i].uei != p + "Recovered")
        && forall k :: i < k < |history| ==> Key(history[k].uei, history[k].streamId) != key
  {
    hide Active, Replay, Key, Filter, IsRecovery;
    var own := Filter(ForKey(key), history);
    ActiveByLatest(history, key);
    if own == [] {
      forall i | 0 <= i < |history| ensures !ForKey(key)(history[i]) {
        FilterMembers(ForKey(key), history, history[i]);
      }
    } else {
      var last := LatestOfKey(history, key);
      RecoveryForm(history[last].uei);
    }
  }

  lemma LatestBurstExactly(reports: seq<Report>)
    requires reports != [] && !RecoveryOf(reports[|reports| - 1])
    ensures LatestBurst(reports) != []
  {
  }

  lemma {:induction false} LatestOfKey(history: seq<Report>, key: string) returns (i: nat)
    requires Filter(ForKey(key), history) != []
    ensures var own := Filter(ForKey(key), history);
      i < |history| && ForKey(key)(history[i]) && history[i] == own[|own| - 1]
    ensures forall k :: i < k < |history| ==> !ForKey(key)(history[k])
  {
    var front := history[..|history| - 1];
    if ForKey(key)(history[|history| - 1]) {
      i := |history| - 1;
    } else {
      i := LatestOfKey(front, key);
    }
  }
}
