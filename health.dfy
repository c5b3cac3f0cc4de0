/** The health indicator of the overview page (`getHealthScore`). */
module Health {
  import opened Ipc

  /** The two numbers of a `SystemStats` reply that the dashboard computes
      with: CPU load and memory usage, both percentages. */
  datatype Stats = Stats(cpuUsage: real, memoryUsage: real)

  /** What `getHealthScore` returns: the score, the status word and its colour. */
  datatype HealthReport = HealthReport(score: real, status: string, color: string)

  const UnknownColor: string := "#6b7280"
  const ExcellentColor: string := "#10b981"
  const GoodColor: string := "#f59e0b"
  const FairColor: string := "#f97316"
  const PoorColor: string := "#ef4444"

  /** `Math.max(0, x)` */
  function AtLeastZero(x: real): (r: real)
    ensures r >= 0.0 && r >= x
    ensures r == x || r == 0.0
  {
    if x < 0.0 then 0.0 else x
  }

  /** The average of the CPU and memory head-room, each clamped at zero. */
  function Score(s: Stats): real {
    (AtLeastZero(100.0 - s.cpuUsage) + AtLeastZero(100.0 - s.memoryUsage)) / 2.0
  }

  /** `getHealthScore`: no stats yet gives 0 and 'Unknown'; otherwise the score
      is bucketed at 80, 60 and 40, each threshold inclusive. */
  function HealthScore(stats: Option<Stats>): (h: HealthReport)
    ensures stats.None? ==> h == HealthReport(0.0, "Unknown", UnknownColor)
    ensures stats.Some? ==> h.score == Score(stats.value)
    ensures h.score >= 0.0
    ensures (stats.Some? && stats.value.cpuUsage >= 0.0 && stats.value.memoryUsage >= 0.0) ==> h.score <= 100.0
    ensures h.status == "Unknown" <==> stats.None?
    ensures stats.Some? ==>
              && (h.status == "Excellent" <==> h.score >= 80.0)
              && (h.status == "Good" <==> 60.0 <= h.score < 80.0)
              && (h.status == "Fair" <==> 40.0 <= h.score < 60.0)
              && (h.status == "Poor" <==> h.score < 40.0)
    ensures h.color == StatusColor(h.status)
  {
    match stats
    case None => HealthReport(0.0, "Unknown", UnknownColor)
    case Some(s) =>
      var avg := Score(s);
      if avg >= 80.0 then HealthReport(avg, "Excellent", ExcellentColor)
      else if avg >= 60.0 then HealthReport(avg, "Good", GoodColor)
      else if avg >= 40.0 then HealthReport(avg, "Fair", FairColor)
      else HealthReport(avg, "Poor", PoorColor)
  }

  /** The colour paired with each status word. */
  function StatusColor(status: string): string {
    if status == "Excellent" then ExcellentColor
    else if status == "Good" then GoodColor
    else if status == "Fair" then FairColor
    else if status == "Poor" then PoorColor
    else UnknownColor
  }

  /** The status words ordered from worst to best, 'Unknown' lowest. */
  function Rank(status: string): nat {
    if status == "Excellent" then 4
    else if status == "Good" then 3
    else if status == "Fair" then 2
    else if status == "Poor" then 1
    else 0
  }

  /** Less load never gives a worse status: the bucketing is monotone. */
  lemma HealthMonotone(lighter: Stats, heavier: Stats)
    requires lighter.cpuUsage <= heavier.cpuUsage
    requires lighter.memoryUsage <= heavier.memoryUsage
    ensures Score(heavier) <= Score(lighter)
    ensures Rank(HealthScore(Some(heavier)).status) <= Rank(HealthScore(Some(lighter)).status)
  {
  }
}
