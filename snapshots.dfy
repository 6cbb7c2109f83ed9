/**
 * The device list the gateway returns: a mapping from opaque device keys to
 * records, kept in the order the mapping iterates (insertion order). Each
 * record has a `type` tag and numeric fields such as CurrentGasFlow.
 */
module Snapshots {
  import opened Wrappers

  /** One device record: its `type` tag and its numeric fields. */
  datatype Device = Device(kind: string, fields: map<string, real>)

  /** No key occurs twice, as in a decoded JSON object. */
  predicate DistinctKeys(s: seq<(string, Device)>)
  {
    forall i, j :: 0 <= i < j < |s| ==> s[i].0 != s[j].0
  }

  /** A decoded device list, in iteration order. */
  type Snapshot = s: seq<(string, Device)> | DistinctKeys(s)

  /** `energy[key]` if `key in energy`, else None. */
  function Lookup(s: seq<(string, Device)>, key: string): (r: Option<Device>)
    ensures r.None? <==> forall i :: 0 <= i < |s| ==> s[i].0 != key
    ensures r.Some? ==> exists i :: 0 <= i < |s| && s[i] == (key, r.value)
  {
    if |s| == 0 then None
    else if s[0].0 == key then Some(s[0].1)
    else
      var r := Lookup(s[1..], key);
      assert r.Some? ==> exists i :: 0 <= i < |s[1..]| && s[1..][i] == (key, r.value);
      r
  }

  /** `key in energy`. */
  predicate Has(s: seq<(string, Device)>, key: string)
  {
    Lookup(s, key).Some?
  }

  /** In a snapshot, every listed key finds exactly its own record. */
  lemma {:induction false} LookupAt(s: Snapshot, i: nat)
    requires i < |s|
    ensures Lookup(s, s[i].0) == Some(s[i].1)
  {
    if i > 0 {
      var t: Snapshot := s[1..];
      LookupAt(t, i - 1);
    }
  }

  /** Python truthiness of the decoded data: present and not an empty mapping. */
  predicate Truthy(data: Option<Snapshot>)
  {
    data.Some? && |data.value| > 0
  }

  /** `ToonSmartMeterData.latest_data`: the data when truthy, else None. */
  function LatestData(data: Option<Snapshot>): (r: Option<Snapshot>)
    ensures r.Some? <==> Truthy(data)
    ensures r.Some? ==> r == data
  {
    if Truthy(data) then data else None
  }

  /**
   * What one call of `ToonSmartMeterData.async_update` met: the throttle
   * skipped it, the connection failed (timeout or client error), the
   * download raised another exception, the body did not decode, or it
   * decoded to a device list.
   */
  datatype Fetch = Throttled | ConnectError | DownloadError | ParseError | Decoded(json: Snapshot)
  {
    predicate Failed()
    {
      ConnectError? || DownloadError? || ParseError?
    }
  }

  /** The cached data after one fetch. */
  function AfterFetch(data: Option<Snapshot>, f: Fetch): (r: Option<Snapshot>)
    ensures f.Failed() ==> r == None
    ensures f.Throttled? ==> r == data
    ensures f.Decoded? ==> r == Some(f.json)
  {
    match f
    case Throttled => data
    case Decoded(json) => Some(json)
    case _ => None
  }
}
