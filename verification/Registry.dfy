/** The shared device registry: a map of pointers to mutable status records. */
module Registry {
  import opened Bytes
  import opened Sequences

  datatype TelemetryEvent = TelemetryEvent(device: Bytes, kind: Bytes, value: real, timestamp: int)

  /** What one status record says at a moment. */
  datatype Status = Status(device: Bytes, lastSeen: int, eventCount: nat)

  type Devices = map<Bytes, Status>

  function Recorded(devices: Devices, id: Bytes, at: int): Devices {
    devices[id := Status(id, at, (if id in devices then devices[id].eventCount else 0) + 1)]
  }

  class DeviceStatus {
    const deviceId: Bytes
    var lastSeen: int
    var eventCount: nat

    constructor (id: Bytes)
      ensures deviceId == id && eventCount == 0
    {
      deviceId := id;
      lastSeen := 0;
      eventCount := 0;
    }

    function Value(): Status
      reads this
    {
      Status(deviceId, lastSeen, eventCount)
    }
  }

  class Registry {
    var devices: map<Bytes, DeviceStatus>

    /** Each record carries its own key, so no two keys share a record. */
    ghost predicate Valid()
      reads this, devices.Values
    {
      forall id :: id in devices ==> devices[id].deviceId == id
    }

    ghost function View(): Devices
      reads this, devices.Values
    {
      map id | id in devices :: devices[id].Value()
    }

    constructor ()
      ensures Valid() && View() == map[]
    {
      devices := map[];
    }

    method Touch(id: Bytes, at: int)
      requires Valid()
      modifies this, devices.Values
      ensures Valid() && View() == Recorded(old(View()), id, at)
      ensures forall d :: d in devices.Values ==> d in old(devices.Values) || fresh(d)
      ensures forall k :: k in old(devices) ==> k in devices && devices[k] == old(devices[k])
    {
      if id !in devices {
        var d := new DeviceStatus(id);
        devices := devices[id := d];
      }
      var d := devices[id];
      d.lastSeen := at;
      d.eventCount := d.eventCount + 1;
    }

    /** Copies every record exactly once, in no particular order. */
    method Snapshot() returns (out: seq<Status>)
      requires Valid()
      ensures forall id :: id in View() ==> View()[id] in out
      ensures forall s :: s in out ==> s.device in View() && View()[s.device] == s
      ensures forall i, j :: 0 <= i < j < |out| ==> out[i].device != out[j].device
    {
      out := [];
      var rest := devices.Keys;
      while rest != {}
        invariant rest <= devices.Keys
        invariant forall id :: id in devices.Keys - rest ==> devices[id].Value() in out
        invariant forall s :: s in out ==> s.device in devices.Keys - rest && devices[s.device].Value() == s
        invariant forall i, j :: 0 <= i < j < |out| ==> out[i].device != out[j].device
      {
        var id :| id in rest;
        out := out + [Status(devices[id].deviceId, devices[id].lastSeen, devices[id].eventCount)];
        rest := rest - {id};
      }
    }
  }

  /** The registry reached by touching for every event of a history in order. */
  function Replay(history: seq<TelemetryEvent>): Devices {
    if history == [] then map[]
    else
      var e := history[|history| - 1];
      Recorded(Replay(history[..|history| - 1]), e.device, e.timestamp)
  }

  lemma ReplayAppend(history: seq<TelemetryEvent>, e: TelemetryEvent)
    ensures Replay(history + [e]) == Recorded(Replay(history), e.device, e.timestamp)
  {
    assert (history + [e])[..|history|] == history;
  }

  function OfDevice(id: Bytes): TelemetryEvent -> bool {
    (e: TelemetryEvent) => e.device == id
  }

  /** A device's record counts its touches and carries the time of the latest one. */
  lemma {:induction false} ReplayCounts(history: seq<TelemetryEvent>, id: Bytes)
    ensures var own := Filter(OfDevice(id), history);
      && (id in Replay(history) <==> own != [])
      && (own != [] ==> Replay(history)[id] == Status(id, own[|own| - 1].timestamp, |own|))
  {
    if history == [] {
    } else {
      var front := history[..|history| - 1];
      ReplayCounts(front, id);
      FilterAppend(OfDevice(id), front, history[|history| - 1]);
      assert history == front + [history[|history| - 1]];
    }
  }
}
