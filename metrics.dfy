/** The unit-tagged readings the client hands out. */
module Metrics {
  import opened Wrappers
  import opened Values

  /** One reading with its unit. */
  datatype Metric = Metric(value: Option<int>, unit: string)

  datatype PowerMetrics = PowerMetrics(maximum: Metric, current: Metric)

  datatype YieldMetrics = YieldMetrics(total: Metric, today: Metric)

  /** What `getMetrics` returns; the `yield` entry is named `energy` here, `yield` being a Dafny keyword. */
  datatype Report = Report(power: PowerMetrics, energy: YieldMetrics, uptime: Metric)

  /** The fixed unit of each value key. */
  function UnitOf(key: string): (u: string)
    requires key in KeySet
    ensures key == MAXIMUM_POWER || key == CURRENT_POWER ==> u == "W"
    ensures key == TOTAL_YIELD || key == TODAY_YIELD ==> u == "Wh"
    ensures key == UPTIME ==> u == "s"
  {
    if key == MAXIMUM_POWER || key == CURRENT_POWER then "W"
    else if key == UPTIME then "s"
    else "Wh"
  }

  /** What one accessor returns: the key's entry of the value set, with the key's unit. */
  function MetricOf(data: RawValues, key: string): Metric
    requires key in KeySet && key in data
  {
    Metric(data[key], UnitOf(key))
  }

  function PowerOf(data: RawValues): PowerMetrics
    requires KeySet <= data.Keys
  {
    PowerMetrics(MetricOf(data, MAXIMUM_POWER), MetricOf(data, CURRENT_POWER))
  }

  function YieldsOf(data: RawValues): YieldMetrics
    requires KeySet <= data.Keys
  {
    YieldMetrics(MetricOf(data, TOTAL_YIELD), MetricOf(data, TODAY_YIELD))
  }

  /** The report built from one value set. */
  function ReportOf(data: RawValues): Report
    requires KeySet <= data.Keys
  {
    Report(PowerOf(data), YieldsOf(data), MetricOf(data, UPTIME))
  }

  /** The value set a report was built from, read back key by key. */
  function ValuesOf(r: Report): RawValues {
    map[MAXIMUM_POWER := r.power.maximum.value, CURRENT_POWER := r.power.current.value,
        TOTAL_YIELD := r.energy.total.value, TODAY_YIELD := r.energy.today.value,
        UPTIME := r.uptime.value]
  }

  /** A report loses nothing of the value set, and its units do not depend on the readings. */
  lemma ReportRoundTrip(data: RawValues)
    requires data.Keys == KeySet
    ensures ValuesOf(ReportOf(data)) == data
    ensures var r := ReportOf(data);
      r.power.maximum.unit == "W" && r.power.current.unit == "W" &&
      r.energy.total.unit == "Wh" && r.energy.today.unit == "Wh" && r.uptime.unit == "s"
  {
    var back := ValuesOf(ReportOf(data));
    forall k | k in data ensures back[k] == data[k] {
      assert k in Keys;
    }
  }
}
