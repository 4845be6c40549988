/** The alarm store of core-engine: event reduction into mutable alarms keyed by a joined string. */
module Alarms {
  import opened Sequences

  datatype Report = Report(uei: string, streamId: string, message: string)

  /** Java's int. */
  newtype int32 = x: int | -0x8000_0000 <= x < 0x8000_0000

  /** Java's ++ wraps at the top of the range. */
  function Increment(n: int32): int32 {
    if n == 0x7fff_ffff then -0x8000_0000 else n + 1
  }

  datatype AlarmState = AlarmState(
    reductionKey: string, uei: string, streamId: string, lastMessage: string, occurrenceCount: int32, cleared: bool)

  type Store = map<string, AlarmState>

  function Key(uei: string, streamId: string): string {
    uei + ":" + streamId
  }

  predicate IsRecovery(uei: string) {
    |uei| >= 9 && uei[|uei| - 9..] == "Recovered"
  }

  /** The function passed to compute: what an entry becomes under one report. */
  function Reduce(entry: Option<AlarmState>, r: Report): Option<AlarmState> {
    if IsRecovery(r.uei) then
      (match entry
       case None => None
       case Some(a) => Some(a.(cleared := true)))
    else if entry.None? || entry.value.cleared then
      Some(AlarmState(Key(r.uei, r.streamId), r.uei, r.streamId, r.message, 1, false))
    else
      Some(entry.value.(occurrenceCount := Increment(entry.value.occurrenceCount), lastMessage := r.message))
  }

  function Lookup(store: Store, key: string): Option<AlarmState> {
    if key in store then Some(store[key]) else None
  }

  function Recorded(store: Store, r: Report): Store {
    var key := Key(r.uei, r.streamId);
    match Reduce(Lookup(store, key), r)
    case None => store
    case Some(a) => store[key := a]
  }

  function Active(store: Store): Store {
    map key | key in store && !store[key].cleared :: store[key]
  }

  class Alarm {
    const reductionKey: string
    const uei: string
    const streamId: string
    var lastMessage: string
    var occurrenceCount: int32
    var cleared: bool

    constructor (reductionKey: string, uei: string, streamId: string, message: string)
      ensures Value() == AlarmState(reductionKey, uei, streamId, message, 1, false)
    {
      this.reductionKey := reductionKey;
      this.uei := uei;
      this.streamId := streamId;
      lastMessage := message;
      occurrenceCount := 1;
      cleared := false;
    }

    function Value(): AlarmState
      reads this
    {
      AlarmState(reductionKey, uei, streamId, lastMessage, occurrenceCount, cleared)
    }
  }

  class AlarmStore {
    var alarms: map<string, Alarm>

    /** Every alarm is filed under its own key, so no alarm is filed twice. */
    ghost predicate Valid()
      reads this, alarms.Values
    {
      forall key :: key in alarms ==> alarms[key].reductionKey == key
    }

    ghost function View(): Store
      reads this, alarms.Values
    {
      map key | key in alarms :: alarms[key].Value()
    }

    constructor ()
      ensures Valid() && View() == map[]
    {
      alarms := map[];
    }

    /** One atomic compute on the report's key. */
    method RecordEvent(uei: string, streamId: string, message: string)
      requires Valid()
      modifies this, alarms.Values
      ensures Valid() && View() == Recorded(old(View()), Report(uei, streamId, message))
      ensures forall a :: a in alarms.Values ==> a in old(alarms.Values) || fresh(a)
    {
      var key := uei + ":" + streamId;
      if IsRecovery(uei) {
        if key in alarms {
          var existing := alarms[key];
          existing.cleared := true;
        }
      } else if key !in alarms || alarms[key].cleared {
        var created := new Alarm(key, uei, streamId, message);
        alarms := alarms[key := created];
      } else {
        var existing := alarms[key];
        existing.occurrenceCount := Increment(existing.occurrenceCount);
        existing.lastMessage := message;
      }
    }

    /** The uncleared alarms themselves, not copies of them. */
    method GetActiveAlarms() returns (active: map<string, Alarm>)
      requires Valid()
      ensures active.Keys == Active(View()).Keys
      ensures forall key :: key in active <==> key in alarms && !alarms[key].cleared
      ensures forall key :: key in active ==> active[key] == alarms[key]
    {
      active := map[];
      var rest := alarms.Keys;
      while rest != {}
        invariant rest <= alarms.Keys
        invariant forall key :: key in active <==> key in alarms.Keys - rest && !alarms[key].cleared
        invariant forall key :: key in active ==> active[key] == alarms[key]
      {
        var key :| key in rest;
        if !alarms[key].cleared {
          active := active[key := alarms[key]];
        }
        rest := rest - {key};
      }
    }
  }
}
