/** Value extraction and normalisation: the fixed key set of the bulk query, reading
    a device entry, the kWh-to-Wh conversion of total yield, the today-yield fallback
    and the logger delta that feeds it. */
module Values {
  import opened Wrappers
  import opened Php
  import opened Wire

  const MAXIMUM_POWER := "6100_00411E00"
  const CURRENT_POWER := "6100_40263F00"
  const TOTAL_YIELD := "6400_00260100"
  const TODAY_YIELD := "6400_00262200"
  const UPTIME := "6400_00462E00"

  /** Logger key of the today series, and of past yields (declared by the client, never queried). */
  const YIELD_KEY_TODAY := 28672
  const YIELD_KEY_BEFORE := 28704

  /** Default length of a logger window, in seconds. */
  const DAY := 86400

  /** The keys of the bulk query, in the order the request lists them and the loop visits them. */
  const Keys: seq<string> := [MAXIMUM_POWER, CURRENT_POWER, TOTAL_YIELD, TODAY_YIELD, UPTIME]
  /** The same five keys as a set: the key set of every value set. */
  const KeySet: set<string> := {MAXIMUM_POWER, CURRENT_POWER, TOTAL_YIELD, TODAY_YIELD, UPTIME}

  /** The set and the request list name the same keys, each once. */
  lemma KeySetIsKeys()
    ensures KeySet == set k | k in Keys
    ensures |Keys| == |KeySet| == 5
  {
    assert KeySet == set k | k in Keys;
  }

  /** A raw value set: value key to a nullable reading. */
  type RawValues = map<string, Option<int>>

  /** A reading as the PHP scalar it is: null or a number. */
  function AsScalar(v: Option<int>): Scalar {
    match v
    case None => Null
    case Some(i) => Int(i)
  }

  /** `empty()` on a reading. */
  predicate IsEmptyValue(v: Option<int>) {
    Empty(AsScalar(v))
  }

  /** `device[key][1][0]['val']` when that path is set (`isset`), and null otherwise. */
  function Lookup(device: DeviceValues, key: string): Option<int> {
    if key in device && 1 in device[key] && |device[key][1]| > 0 then device[key][1][0].val else None
  }

  /** The first device entry of a reply; an empty reply reads as a device with no keys. */
  function FirstDevice(result: seq<DeviceValues>): DeviceValues {
    if |result| == 0 then map[] else result[0]
  }

  /** The first device's sample list; an empty reply reads as no samples. */
  function FirstSeries(result: seq<seq<Sample>>): seq<Sample> {
    if |result| == 0 then [] else result[0]
  }

  /** The raw value set read from one device entry: every fixed key, read by `Lookup`. */
  function Extracted(device: DeviceValues): RawValues {
    map k | k in KeySet :: Lookup(device, k)
  }

  /** Every fixed key is present, and each carries the device's reading or null. */
  lemma ExtractedKeys(device: DeviceValues)
    ensures Extracted(device).Keys == KeySet
    ensures forall k :: k in Extracted(device) ==> Extracted(device)[k] == Lookup(device, k)
  {
  }

  /** The loop that fills the value set key by key. */
  method ReadValues(device: DeviceValues) returns (values: RawValues)
    ensures values == Extracted(device)
  {
    values := map[];
    for i := 0 to |Keys|
      invariant forall k :: k in values <==> k in Keys[..i]
      invariant forall k :: k in values ==> values[k] == Lookup(device, k)
    {
      var key := Keys[i];
      values := values[key := None];
      var reading := Lookup(device, key);
      if reading.Some? {
        values := values[key := reading];
      }
    }
    assert Keys[..|Keys|] == Keys;
    assert values.Keys == Extracted(device).Keys;
  }

  /** Total yield in Wh from the device's kWh reading: scaled by 1000 unless empty. */
  function ScaleTotal(v: Option<int>): (r: Option<int>)
    ensures IsEmptyValue(v) ==> r == v
    ensures !IsEmptyValue(v) ==> r.Some? && v.Some? && r.value == 1000 * v.value
    ensures IsEmptyValue(r) <==> IsEmptyValue(v)
  {
    if IsEmptyValue(v) then v else Some(v.value * 1000)
  }

  /** Whether the direct today-yield reading has to be replaced by the logger computation. */
  predicate NeedsFallback(raw: RawValues)
    requires TODAY_YIELD in raw
  {
    IsEmptyValue(raw[TODAY_YIELD])
  }

  /** The value set `getValues` returns: total yield converted to Wh, and an empty today
      yield replaced by `fallback`, the logger yield since midnight. */
  function Normalised(raw: RawValues, fallback: int): (m: RawValues)
    requires TOTAL_YIELD in raw && TODAY_YIELD in raw
    ensures m.Keys == raw.Keys
    ensures forall k :: k in raw && k != TOTAL_YIELD && k != TODAY_YIELD ==> m[k] == raw[k]
    ensures m[TOTAL_YIELD] == ScaleTotal(raw[TOTAL_YIELD])
    ensures !NeedsFallback(raw) ==> m[TODAY_YIELD] == raw[TODAY_YIELD]
    ensures NeedsFallback(raw) ==> m[TODAY_YIELD] == Some(fallback)
    ensures m[TODAY_YIELD].Some?
  {
    var scaled := raw[TOTAL_YIELD := ScaleTotal(raw[TOTAL_YIELD])];
    if NeedsFallback(raw) then scaled[TODAY_YIELD := Some(fallback)] else scaled
  }

  /** A value set as `getValues` produces it: exactly the five keys, today yield present. */
  predicate WellFormed(data: RawValues) {
    data.Keys == KeySet && data[TODAY_YIELD].Some?
  }

  /** Normalising a device entry keeps the closed key set, and the three keys without
      a conversion or fallback carry the device's readings. */
  lemma NormalisedShape(device: DeviceValues, fallback: int)
    ensures WellFormed(Normalised(Extracted(device), fallback))
    ensures var m := Normalised(Extracted(device), fallback);
      m[MAXIMUM_POWER] == Lookup(device, MAXIMUM_POWER) &&
      m[CURRENT_POWER] == Lookup(device, CURRENT_POWER) &&
      m[UPTIME] == Lookup(device, UPTIME)
  {
  }

  /** The value set of a client without a session: every key null except today yield,
      which the fallback sets to 0. */
  lemma NoDeviceValues()
    ensures Normalised(Extracted(map[]), 0)
         == map[MAXIMUM_POWER := None, CURRENT_POWER := None, TOTAL_YIELD := None,
                TODAY_YIELD := Some(0), UPTIME := None]
  {
    var m := Normalised(Extracted(map[]), 0);
    var e := map[MAXIMUM_POWER := None, CURRENT_POWER := None, TOTAL_YIELD := None,
                 TODAY_YIELD := Some(0), UPTIME := None];
    assert m.Keys == e.Keys;
    forall k | k in m ensures m[k] == e[k] {
      assert k in Keys;
    }
  }

  /** The yield over a logger window: last sample minus first, when there are at least two. */
  function SeriesYield(logs: seq<Sample>): int {
    if |logs| > 1 then logs[|logs| - 1].v - logs[0].v else 0
  }

  /** Reference definition: the sum of the increments between consecutive samples. */
  function Increments(logs: seq<Sample>): int
    decreases |logs|
  {
    if |logs| < 2 then 0 else (logs[1].v - logs[0].v) + Increments(logs[1..])
  }

  /** The logger delta is the sum of the per-sample increments. */
  lemma {:induction false} SeriesYieldTelescopes(logs: seq<Sample>)
    ensures SeriesYield(logs) == Increments(logs)
  {
    if |logs| >= 2 {
      SeriesYieldTelescopes(logs[1..]);
    }
  }

  /** Samples that never decrease. */
  predicate Cumulative(logs: seq<Sample>) {
    forall i :: 0 <= i < |logs| - 1 ==> logs[i].v <= logs[i + 1].v
  }

  lemma {:induction false} IncrementsNonNegative(logs: seq<Sample>)
    requires Cumulative(logs)
    ensures Increments(logs) >= 0
  {
    if |logs| >= 2 {
      assert Cumulative(logs[1..]) by {
        forall i | 0 <= i < |logs[1..]| - 1 ensures logs[1..][i].v <= logs[1..][i + 1].v {
          assert logs[1..][i] == logs[i + 1] && logs[1..][i + 1] == logs[i + 2];
        }
      }
      IncrementsNonNegative(logs[1..]);
    }
  }

  /** A cumulative energy counter never yields a negative amount over a window. */
  lemma CumulativeYieldNonNegative(logs: seq<Sample>)
    requires Cumulative(logs)
    ensures SeriesYield(logs) >= 0
  {
    SeriesYieldTelescopes(logs);
    IncrementsNonNegative(logs);
  }

  /** Worked examples of the kWh-to-Wh conversion and of the logger delta. */
  lemma WorkedExamples()
    ensures ScaleTotal(Some(12)) == Some(12000)
    ensures ScaleTotal(Some(0)) == Some(0) && ScaleTotal(None) == None
    ensures SeriesYield([Sample(0, 100), Sample(300, 100), Sample(600, 145)]) == 45
    ensures SeriesYield([Sample(0, 100)]) == 0 && SeriesYield([]) == 0
  {
  }
}
