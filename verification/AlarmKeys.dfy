/** What joining a uei and a stream id with a colon does to clearing alarms. */
module AlarmKeys {
  import opened Sequences
  import opened Alarms
  import opened AlarmHistory

  /** The second pair's uei runs past the first one's, through a colon, into its stream id. */
  ghost predicate RunsInto(uei: string, streamId: string, uei': string, streamId': string) {
    exists middle :: uei' == uei + ":" + middle && streamId == middle + ":" + streamId'
  }

  /** Exactly when two different pairs are reduced under one key. */
  lemma KeysCoincide(uei: string, streamId: string, uei': string, streamId': string)
    ensures Key(uei, streamId) == Key(uei', streamId') <==> (
              || (uei == uei' && streamId == streamId')
              || RunsInto(uei, streamId, uei', streamId')
              || RunsInto(uei', streamId', uei, streamId))
  {
    if Key(uei, streamId) == Key(uei', streamId') {
      if |uei| < |uei'| {
        LongerRunsInto(uei, streamId, uei', streamId');
      } else if |uei'| < |uei| {
        LongerRunsInto(uei', streamId', uei, streamId);
      } else {
        var key := Key(uei, streamId);
        assert uei == key[..|uei|] && uei' == key[..|uei|];
        assert streamId == key[|uei| + 1..] && streamId' == key[|uei| + 1..];
      }
    } else if RunsInto(uei, streamId, uei', streamId') {
      RunsIntoSameKey(uei, streamId, uei', streamId');
    } else if RunsInto(uei', streamId', uei, streamId) {
      RunsIntoSameKey(uei', streamId', uei, streamId);
    }
  }

  lemma RunsIntoSameKey(uei: string, streamId: string, uei': string, streamId': string)
    requires RunsInto(uei, streamId, uei', streamId')
    ensures Key(uei, streamId) == Key(uei', streamId')
    ensures !ColonFree(uei')
  {
    var middle :| uei' == uei + ":" + middle && streamId == middle + ":" + streamId';
    assert Key(uei, streamId) == uei + ":" + middle + ":" + streamId' == Key(uei', streamId');
    assert uei'[|uei|] == ':';
  }

  lemma LongerRunsInto(uei: string, streamId: string, uei': string, streamId': string)
    requires Key(uei, streamId) == Key(uei', streamId') && |uei| < |uei'|
    ensures RunsInto(uei, streamId, uei', streamId')
  {
    var key := Key(uei, streamId);
    var middle := uei'[|uei| + 1..];
    assert uei == key[..|uei|] && uei' == key[..|uei'|] && key[|uei|] == ':';
    assert uei' == uei'[..|uei|] + [uei'[|uei|]] + middle;
    assert uei' == uei + ":" + middle;
    assert streamId == key[|uei| + 1..] == Key(uei', streamId')[|uei| + 1..];
    assert streamId == middle + ":" + streamId';
  }

  predicate ColonFree(uei: string) {
    ':' !in uei
  }

  lemma ColonFreeKeysInjective(uei: string, streamId: string, uei': string, streamId': string)
    requires ColonFree(uei) && ColonFree(uei') && Key(uei, streamId) == Key(uei', streamId')
    ensures uei == uei' && streamId == streamId'
  {
    KeysCoincide(uei, streamId, uei', streamId');
    if RunsInto(uei, streamId, uei', streamId') {
      RunsIntoSameKey(uei, streamId, uei', streamId');
    } else if RunsInto(uei', streamId', uei, streamId) {
      RunsIntoSameKey(uei', streamId', uei, streamId);
    }
  }

  ghost predicate SomeAlarmCleared(store: Store) {
    exists key :: key in store && store[key].cleared
  }

  ghost predicate Vocabulary(history: seq<Report>, reports: set<Report>) {
    forall r :: r in history ==> r in reports
  }

  /** A recovery report can reach another report's alarm only through a colon inside a uei. */
  ghost predicate Reaches(recovery: Report, r: Report) {
    && IsRecovery(recovery.uei)
    && !IsRecovery(r.uei)
    && (RunsInto(r.uei, r.streamId, recovery.uei, recovery.streamId)
        || RunsInto(recovery.uei, recovery.streamId, r.uei, r.streamId))
  }

  /** No report of the same stream is reached, whatever colons the ueis contain. */
  lemma SameStreamOutOfReach(recovery: Report, r: Report)
    requires recovery.streamId == r.streamId
    ensures !Reaches(recovery, r)
  {
    if RunsInto(r.uei, r.streamId, recovery.uei, recovery.streamId) {
      StreamShortens(r.uei, r.streamId, recovery.uei, recovery.streamId);
    }
    if RunsInto(recovery.uei, recovery.streamId, r.uei, r.streamId) {
      StreamShortens(recovery.uei, recovery.streamId, r.uei, r.streamId);
    }
  }

  lemma StreamShortens(uei: string, streamId: string, uei': string, streamId': string)
    requires RunsInto(uei, streamId, uei', streamId')
    ensures |streamId'| < |streamId|
  {
    var middle :| uei' == uei + ":" + middle && streamId == middle + ":" + streamId';
  }

  /** A recovery leaves every alarm of its own stream as it was, in any store. */
  lemma RecoveryLeavesItsStream(store: Store, down: Report, up: Report)
    requires !IsRecovery(down.uei) && IsRecovery(up.uei) && down.streamId == up.streamId
    ensures Lookup(Recorded(store, up), Key(down.uei, down.streamId)) == Lookup(store, Key(down.uei, down.streamId))
  {
    SameStreamOutOfReach(up, down);
    KeysCoincide(down.uei, down.streamId, up.uei, up.streamId);
  }

  /** So a report followed by the recovery of its stream is still an active alarm. */
  lemma RecoveredStreamStaysActive(down: Report, up: Report)
    requires !IsRecovery(down.uei) && IsRecovery(up.uei) && down.streamId == up.streamId
    ensures var key := Key(down.uei, down.streamId);
      && key in Active(Replay([down, up]))
      && Active(Replay([down, up]))[key] == AlarmState(key, down.uei, down.streamId, down.message, 1, false)
  {
    assert [down, up][..1] == [down] && [down][..0] == [];
    assert Replay([down]) == Recorded(Replay([]), down);
    assert Replay([down, up]) == Recorded(Replay([down]), up);
    RecoveryLeavesItsStream(Replay([down]), down, up);
  }

  /** No history of a single stream ever clears an alarm. */
  lemma OneStreamNeverClears(history: seq<Report>)
    requires forall r, r' :: r in history && r' in history ==> r.streamId == r'.streamId
    ensures !SomeAlarmCleared(Replay(history))
  {
    if key :| key in Replay(history) && Replay(history)[key].cleared {
      var recovery, r := ClearedNeedsReach(history, key);
      SameStreamOutOfReach(recovery, r);
    }
  }

  lemma ClearedNeedsReach(history: seq<Report>, key: string) returns (recovery: Report, r: Report)
    requires key in Replay(history) && Replay(history)[key].cleared
    ensures recovery in history && r in history && Reaches(recovery, r)
  {
    HistoryRefinement(history, key);
    var own := Filter(ForKey(key), history);
    var before, after := LatestBurstIsMaximal(own);
    assert Lookup(Replay(history), key).Some?;
    assert LatestBurst(own) != [];
    recovery, r := own[|own| - 1], LatestBurst(own)[0];
    assert r in own;
    FilterMembers(ForKey(key), history, recovery);
    FilterMembers(ForKey(key), history, r);
    assert !RecoveryOf(r) && RecoveryOf(recovery);
    KeysCoincide(r.uei, r.streamId, recovery.uei, recovery.streamId);
  }

  /**
   Reports drawn from a set can leave a cleared alarm exactly when the set holds a recovery
   that reaches another report across a colon.
   */
  lemma ClearingExactly(reports: set<Report>)
    ensures (exists history :: Vocabulary(history, reports) && SomeAlarmCleared(Replay(history)))
       <==> (exists recovery, r :: recovery in reports && r in reports && Reaches(recovery, r))
  {
    if history :| Vocabulary(history, reports) && SomeAlarmCleared(Replay(history)) {
      var key :| key in Replay(history) && Replay(history)[key].cleared;
      var recovery, r := ClearedNeedsReach(history, key);
    }
    if recovery, r :| recovery in reports && r in reports && Reaches(recovery, r) {
      KeysCoincide(r.uei, r.streamId, recovery.uei, recovery.streamId);
      var key := Key(r.uei, r.streamId);
      var history := [r, recovery];
      assert history[..1] == [r] && [r][..0] == [];
      assert Replay([r]) == Recorded(Replay([]), r);
      assert key in Replay(history) && Replay(history)[key].cleared;
      assert Vocabulary(history, reports);
    }
  }

  /** The sum of the occurrence counts in a store. */
  ghost function Occurrences(store: Store): int
  {
    if store == map[] then 0
    else
      var key :| key in store;
      store[key].occurrenceCount as int + Occurrences(store - {key})
  }

  lemma {:induction false} OccurrencesWithout(store: Store, key: string)
    requires key in store
    ensures Occurrences(store) == store[key].occurrenceCount as int + Occurrences(store - {key})
    decreases |store|
  {
    var first :| first in store
      && Occurrences(store) == store[first].occurrenceCount as int + Occurrences(store - {first});
    if first != key {
      OccurrencesWithout(store - {first}, key);
      OccurrencesWithout(store - {key}, first);
      assert store - {first} - {key} == store - {key} - {first};
    }
  }

  lemma OccurrencesBound(store: Store, key: string)
    requires key in store && forall k :: k in store ==> store[k].occurrenceCount > 0
    ensures store[key].occurrenceCount as int <= Occurrences(store)
  {
    OccurrencesWithout(store, key);
    OccurrencesPositive(store - {key});
  }

  lemma {:induction false} OccurrencesPositive(store: Store)
    requires forall k :: k in store ==> store[k].occurrenceCount > 0
    ensures Occurrences(store) >= 0
    decreases |store|
  {
    if store == map[] {
    } else {
      var key :| key in store;
      OccurrencesWithout(store, key);
      OccurrencesPositive(store - {key});
    }
  }

  lemma OccurrencesUpdate(store: Store, key: string, a: AlarmState)
    ensures Occurrences(store[key := a]) == a.occurrenceCount as int + Occurrences(store - {key})
  {
    OccurrencesWithout(store[key := a], key);
    assert store[key := a] - {key} == store - {key};
  }

  function NotRecovery(): Report -> bool {
    (r: Report) => !IsRecovery(r.uei)
  }

  /** What a store holds when no uei has a colon. */
  ghost predicate Uncleared(store: Store) {
    forall key :: key in store ==>
      var a := store[key];
      key == Key(a.uei, a.streamId) && ColonFree(a.uei) && !IsRecovery(a.uei) && !a.cleared && a.occurrenceCount > 0
  }

  lemma UnclearedStep(store: Store, r: Report)
    requires Uncleared(store) && ColonFree(r.uei) && Occurrences(store) < 0x7fff_ffff
    ensures Uncleared(Recorded(store, r))
    ensures Occurrences(Recorded(store, r)) == Occurrences(store) + if IsRecovery(r.uei) then 0 else 1
  {
    var key := Key(r.uei, r.streamId);
    if key in store {
      ColonFreeKeysInjective(r.uei, r.streamId, store[key].uei, store[key].streamId);
      OccurrencesWithout(store, key);
      OccurrencesBound(store, key);
    }
    if !IsRecovery(r.uei) {
      OccurrencesUpdate(store, key, Reduce(Lookup(store, key), r).value);
      if key !in store {
        assert store - {key} == store;
      }
    }
  }

  /**
   With colon-free ueis no alarm is ever cleared and no recovery is ever stored, and the
   active counts add up to the reports that are not recoveries.
   */
  lemma {:induction false} ColonFreeNeverClears(history: seq<Report>)
    requires forall r :: r in history ==> ColonFree(r.uei)
    requires |Filter(NotRecovery(), history)| < 0x8000_0000
    ensures Uncleared(Replay(history))
    ensures Active(Replay(history)) == Replay(history)
    ensures Occurrences(Active(Replay(history))) == |Filter(NotRecovery(), history)|
  {
    if history == [] {
    } else {
      var front, r := history[..|history| - 1], history[|history| - 1];
      assert history == front + [r];
      FilterAppend(NotRecovery(), front, r);
      ColonFreeNeverClears(front);
      if !IsRecovery(r.uei) || Occurrences(Replay(front)) < 0x7fff_ffff {
        UnclearedStep(Replay(front), r);
      } else {
        RecoveryUnmatched(Replay(front), r);
      }
    }
    assert Active(Replay(history)) == Replay(history);
  }

  lemma RecoveryUnmatched(store: Store, r: Report)
    requires Uncleared(store) && ColonFree(r.uei) && IsRecovery(r.uei)
    ensures Recorded(store, r) == store
  {
    var key := Key(r.uei, r.streamId);
    if key in store {
      ColonFreeKeysInjective(r.uei, r.streamId, store[key].uei, store[key].streamId);
    }
  }
}
