/**
 * The two stateful objects of the platform. ToonData caches the last decoded
 * device list (`_data`). A Sensor holds its current value (`_state`), the
 * run-once discovery latch (`_discovery`) and the table it builds
 * (`_dev_id`). Latch, DiscoveryStep and NextState are the specification of
 * one sensor update; RunLatch folds DiscoveryStep over a series of updates.
 */
module Sensors {
  import opened Wrappers
  import opened Channels
  import opened Snapshots
  import opened Discovery
  import opened Resolution

  /** The discovery part of a sensor's state: `_discovery` and `_dev_id`. */
  datatype Latch = Latch(discovered: bool, devId: Table)

  /** The latch state a new sensor starts in. */
  const Initial: Latch := Latch(false, map[])

  /** Discovery runs on a truthy device list, and only while the latch is open. */
  function DiscoveryStep(l: Latch, energy: Option<Snapshot>): Latch
  {
    if !Truthy(energy) || l.discovered then l
    else Latch(true, Discover(l.devId, energy.value))
  }

  /** The latch invariant: the table is empty until discovery and Paired always. */
  ghost predicate LatchValid(l: Latch)
  {
    (!l.discovered ==> l.devId == map[]) && Paired(l.devId)
  }

  /** The read that follows discovery does not raise KeyError. */
  predicate UpdateReadable(c: Channel, l: Latch, energy: Option<Snapshot>)
  {
    Truthy(energy) ==> Readable(c, DiscoveryStep(l, energy).devId, energy.value)
  }

  /** `_state` after an update that saw `energy`, given the table after discovery. */
  function NextState(c: Channel, state: Option<real>, devId: Table, energy: Option<Snapshot>): Option<real>
    requires Truthy(energy) ==> Readable(c, devId, energy.value)
  {
    if !Truthy(energy) then state
    else match Reading(c, devId, energy.value)
      case Some(v) => Some(v)
      case None => state
  }

  /** The latch after a series of updates, each seeing the given device list. */
  function RunLatch(l: Latch, feed: seq<Option<Snapshot>>): Latch
    decreases |feed|
  {
    if |feed| == 0 then l else RunLatch(DiscoveryStep(l, feed[0]), feed[1..])
  }

  /** An absent or empty device list changes nothing: not the latch, not the table, not the value. */
  lemma EmptyChangesNothing(c: Channel, l: Latch, state: Option<real>, data: Option<Snapshot>)
    requires data.None? || |data.value| == 0
    ensures DiscoveryStep(l, LatestData(data)) == l
    ensures NextState(c, state, l.devId, LatestData(data)) == state
  {
  }

  /** A channel that resolves no key keeps its previous value; it is not cleared. */
  lemma MissKeepsValue(c: Channel, state: Option<real>, devId: Table, energy: Option<Snapshot>)
    requires Truthy(energy) && SourceKey(c, devId, energy.value).None?
    ensures NextState(c, state, devId, energy) == state
  {
  }

  /** Every update keeps the latch invariant. */
  lemma StepKeepsValid(l: Latch, energy: Option<Snapshot>)
    requires LatchValid(l)
    ensures LatchValid(DiscoveryStep(l, energy))
  {
    if Truthy(energy) && !l.discovered {
      DiscoverFromEmpty(energy.value);
    }
  }

  /** Once the latch is set, no later device list changes the table, whatever its layout. */
  lemma {:induction false} DiscoveredIsFrozen(l: Latch, feed: seq<Option<Snapshot>>)
    requires l.discovered
    ensures RunLatch(l, feed) == l
    decreases |feed|
  {
    if |feed| > 0 {
      DiscoveredIsFrozen(DiscoveryStep(l, feed[0]), feed[1..]);
    }
  }

  /** Without a truthy device list discovery never runs. */
  lemma {:induction false} NoDataNoDiscovery(l: Latch, feed: seq<Option<Snapshot>>)
    requires forall j :: 0 <= j < |feed| ==> !Truthy(feed[j])
    ensures RunLatch(l, feed) == l
    decreases |feed|
  {
    if |feed| > 0 {
      NoDataNoDiscovery(DiscoveryStep(l, feed[0]), feed[1..]);
    }
  }

  /**
   * Discovery runs exactly once, on the first truthy device list: after any
   * series of updates the table is the one computed from that list alone.
   */
  lemma {:induction false} FirstDataDecides(l: Latch, feed: seq<Option<Snapshot>>, i: nat)
    requires !l.discovered && i < |feed| && Truthy(feed[i])
    requires forall j :: 0 <= j < i ==> !Truthy(feed[j])
    ensures RunLatch(l, feed) == Latch(true, Discover(l.devId, feed[i].value))
    decreases |feed|
  {
    if i == 0 {
      DiscoveredIsFrozen(DiscoveryStep(l, feed[0]), feed[1..]);
    } else {
      FirstDataDecides(DiscoveryStep(l, feed[0]), feed[1..], i - 1);
    }
  }

  /** Every reachable latch satisfies the invariant. */
  lemma {:induction false} RunKeepsValid(l: Latch, feed: seq<Option<Snapshot>>)
    requires LatchValid(l)
    ensures LatchValid(RunLatch(l, feed))
    decreases |feed|
  {
    if |feed| > 0 {
      StepKeepsValid(l, feed[0]);
      RunKeepsValid(DiscoveryStep(l, feed[0]), feed[1..]);
    }
  }

  /**
   * The gas example: one record of type "gas" with a quantity of 5000 and a
   * flow of 300. A fresh sensor records it for both gas channels; gasused
   * then shows 0.3 and gasusedcnt shows 5.
   */
  lemma GasExample()
    ensures var s: Snapshot := [("dev_3.1", Device("gas", map["CurrentGasQuantity" := 5000.0, "CurrentGasFlow" := 300.0]))];
      var l := DiscoveryStep(Initial, Some(s));
      && l == Latch(true, map[GasUsed := "dev_3.1", GasUsedCnt := "dev_3.1"])
      && NextState(GasUsed, None, l.devId, Some(s)) == Some(0.3)
      && NextState(GasUsedCnt, None, l.devId, Some(s)) == Some(5.0)
  {
    var s: Snapshot := [("dev_3.1", Device("gas", map["CurrentGasQuantity" := 5000.0, "CurrentGasFlow" := 300.0]))];
    assert s[..0] == [];
    var d := Discover(map[], s);
    assert d == map[GasUsed := "dev_3.1", GasUsedCnt := "dev_3.1"];
    assert Lookup(s, "dev_3.1") == Some(s[0].1);
  }

  /** `ToonSmartMeterData`: the cached result of the last download. */
  class ToonData {
    const host: string
    const port: int
    var data: Option<Snapshot>

    constructor (host: string, port: int)
      ensures this.host == host && this.port == port && data == None
    {
      this.host := host;
      this.port := port;
      data := None;
    }

    /** `async_update`: any failure clears the cache, a decoded body replaces it. */
    method Update(outcome: Fetch)
      modifies this
      ensures outcome.Failed() ==> data == None
      ensures outcome.Decoded? ==> data == Some(outcome.json)
      ensures outcome.Throttled? ==> data == old(data)
      ensures data == AfterFetch(old(data), outcome)
    {
      match outcome
      case Throttled =>
      case ConnectError =>
        data := None;
      case DownloadError =>
        data := None;
      case ParseError =>
        data := None;
      case Decoded(json) =>
        data := Some(json);
    }
  }

  /** `ToonSmartMeterSensor`: one configured resource. */
  class Sensor {
    const toondata: ToonData
    const name: string
    const kind: Channel
    const unit: string
    const icon: string
    var state: Option<real>
    var discovered: bool
    var devId: Table

    ghost predicate Valid()
      reads this
    {
      LatchValid(Latch(discovered, devId))
    }

    constructor (toondata: ToonData, name: string, kind: Channel, unit: string, icon: string)
      ensures this.toondata == toondata && this.name == name && this.kind == kind
      ensures this.unit == unit && this.icon == icon
      ensures state == None && !discovered && devId == map[]
      ensures Valid()
    {
      this.toondata := toondata;
      this.name := name;
      this.kind := kind;
      this.unit := unit;
      this.icon := icon;
      state := None;
      discovered := false;
      devId := map[];
    }

    /**
     * `async_update`: refresh the shared data, then on a truthy device list
     * run discovery if the latch is open and read this sensor's channel.
     */
    method Update(outcome: Fetch)
      requires Valid()
      requires UpdateReadable(kind, Latch(discovered, devId), LatestData(AfterFetch(toondata.data, outcome)))
      modifies this, toondata
      ensures Valid()
      ensures toondata.data == AfterFetch(old(toondata.data), outcome)
      ensures Latch(discovered, devId) == DiscoveryStep(old(Latch(discovered, devId)), LatestData(toondata.data))
      ensures state == NextState(kind, old(state), devId, LatestData(toondata.data))
    {
      toondata.Update(outcome);
      var energy := LatestData(toondata.data);
      if energy.Some? && |energy.value| > 0 {
        var snap := energy.value;
        if !discovered {
          RunDiscovery(snap);
          discovered := true;
          DiscoverFromEmpty(snap);
        }
        var src := SourceKey(kind, devId, snap);
        if src.Some? {
          state := Some(Convert(kind, Lookup(snap, src.value).value.fields[Field(kind)]));
        }
      }
    }

    /** The `for key in energy` loop of discovery. */
    method RunDiscovery(snap: Snapshot)
      modifies this`devId
      ensures devId == Discover(old(devId), snap)
    {
      var i := 0;
      while i < |snap|
        invariant 0 <= i <= |snap|
        invariant devId == Discover(old(devId), snap[..i])
      {
        var (key, dev) := snap[i];
        RegisterDevice(key, dev.kind);
        assert snap[..i + 1][..i] == snap[..i];
        i := i + 1;
      }
      assert snap[..|snap|] == snap;
    }

    /** The five type tests of the loop body for one record. */
    method RegisterDevice(key: string, kind: string)
      modifies this`devId
      ensures devId == Register(old(devId), key, kind)
    {
      if kind in RoleTypes(Gas) {
        devId := devId[GasUsed := key];
        devId := devId[GasUsedCnt := key];
      }
      if kind in RoleTypes(DeliveredLow) {
        devId := devId[ElecUsageFlowLow := key];
        devId := devId[ElecUsageCntLow := key];
      }
      if kind in RoleTypes(DeliveredHigh) {
        devId := devId[ElecUsageFlowHigh := key];
        devId := devId[ElecUsageCntHigh := key];
      }
      if kind in RoleTypes(ReceivedLow) {
        devId := devId[ElecProdFlowLow := key];
        devId := devId[ElecProdCntLow := key];
      }
      if kind in RoleTypes(ReceivedHigh) {
        devId := devId[ElecProdFlowHigh := key];
        devId := devId[ElecProdCntHigh := key];
      }
    }
  }

  /**
   * `async_setup_platform`: create the shared data object, fetch once, and
   * create one sensor per configured resource, named with the prefix and
   * the resource's title and given its unit and icon.
   */
  method SetupPlatform(host: string, port: int, first: Fetch, resources: seq<Channel>)
    returns (toondata: ToonData, sensors: seq<Sensor>)
    ensures fresh(toondata) && toondata.host == host && toondata.port == port
    ensures toondata.data == AfterFetch(None, first)
    ensures |sensors| == |resources|
    ensures forall i :: 0 <= i < |sensors| ==>
              && fresh(sensors[i])
              && sensors[i].toondata == toondata
              && sensors[i].kind == resources[i]
              && sensors[i].name == DisplayName(resources[i])
              && sensors[i].unit == Info(resources[i]).unit
              && sensors[i].icon == Info(resources[i]).icon
              && sensors[i].state == None
              && !sensors[i].discovered && sensors[i].devId == map[]
              && sensors[i].Valid()
    ensures forall i, j :: 0 <= i < j < |sensors| ==> sensors[i] != sensors[j]
  {
    toondata := new ToonData(host, port);
    toondata.Update(first);
    sensors := [];
    for i := 0 to |resources|
      invariant toondata.data == AfterFetch(None, first)
      invariant |sensors| == i
      invariant forall j :: 0 <= j < i ==>
                  && fresh(sensors[j])
                  && sensors[j].toondata == toondata
                  && sensors[j].kind == resources[j]
                  && sensors[j].name == DisplayName(resources[j])
                  && sensors[j].unit == Info(resources[j]).unit
                  && sensors[j].icon == Info(resources[j]).icon
                  && sensors[j].state == None
                  && !sensors[j].discovered && sensors[j].devId == map[]
                  && sensors[j].Valid()
      invariant forall j, k :: 0 <= j < k < i ==> sensors[j] != sensors[k]
    {
      var c := resources[i];
      var sensor := new Sensor(toondata, SensorPrefix + Info(c).title, c, Info(c).unit, Info(c).icon);
      sensors := sensors + [sensor];
    }
  }
}
