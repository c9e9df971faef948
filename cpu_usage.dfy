/**
 * The CPU-delta tracker of `getCPUUsage` (MissionBar/SystemMonitor.swift):
 * a table from pid to the last cumulative CPU time and when it was read.
 * Timestamps are seconds as `real`; the percentage arithmetic is on `real`.
 */
module CpuUsage {
  import opened Wrappers
  import opened Models

  /** The stored baseline for one pid: cumulative CPU nanoseconds and the time of that reading. */
  datatype CpuBaseline = CpuBaseline(time: nat, timestamp: real)

  /** `previousCPUInfo`. */
  type CpuTable = map<Int32, CpuBaseline>

  /** What one call of `getCPUUsage` leaves behind: the new table and the percentage it returns. */
  datatype CpuSample = CpuSample(table: CpuTable, percent: real)

  type Positive = n: nat | n >= 1 witness 1

  const NanosecondsPerSecond: real := 1_000_000_000.0

  /** `cpuCount`: the `hw.ncpu` count when the query succeeds, otherwise 1. */
  function CpuCount(ncpu: Option<Positive>): (count: real)
    ensures count >= 1.0
    ensures ncpu.None? ==> count == 1.0
    ensures ncpu.Some? ==> count == ncpu.value as real
  {
    match ncpu
    case Some(n) => n as real
    case None => 1.0
  }

  /** `max(0.0, min(100.0, x))`. */
  function Clamp(x: real): (r: real)
    ensures 0.0 <= r <= 100.0
    ensures 0.0 <= x <= 100.0 ==> r == x
    ensures x < 0.0 ==> r == 0.0
    ensures x > 100.0 ==> r == 100.0
  {
    if x > 100.0 then 100.0 else if x < 0.0 then 0.0 else x
  }

  /** The unclamped share of the machine: CPU seconds per wall-clock second, in percent, per CPU. */
  function RawPercent(deltaCPU: nat, deltaTime: real, numCPUs: real): real
    requires deltaTime > 0.0 && numCPUs >= 1.0
  {
    (deltaCPU as real / NanosecondsPerSecond) / deltaTime * 100.0 / numCPUs
  }

  lemma RawPercentNonNegative(deltaCPU: nat, deltaTime: real, numCPUs: real)
    requires deltaTime > 0.0 && numCPUs >= 1.0
    ensures RawPercent(deltaCPU, deltaTime, numCPUs) >= 0.0
    ensures deltaCPU == 0 ==> RawPercent(deltaCPU, deltaTime, numCPUs) == 0.0
  {
    var seconds := deltaCPU as real / NanosecondsPerSecond;
    assert seconds >= 0.0;
    var perSecond := seconds / deltaTime;
    assert perSecond >= 0.0;
    assert perSecond * 100.0 >= 0.0;
  }

  /**
   * One call of `getCPUUsage` for `pid`, given the cumulative CPU time the
   * task-info query read (`None` when the query failed) and the time `now`.
   */
  function SampleCpu(table: CpuTable, pid: Int32, reading: Option<nat>, now: real, numCPUs: real): (r: CpuSample)
    requires numCPUs >= 1.0
    ensures 0.0 <= r.percent <= 100.0
    // a failed query returns 0 and leaves the table untouched
    ensures reading.None? ==> r == CpuSample(table, 0.0)
    // otherwise the baseline is overwritten, whatever the percentage
    ensures reading.Some? ==> r.table == table[pid := CpuBaseline(reading.value, now)]
    // the first sighting of a pid claims no usage
    ensures reading.Some? && pid !in table ==> r.percent == 0.0
    // no CPU consumed, a counter that went backwards, or a non-positive interval give 0
    ensures reading.Some? && pid in table && (reading.value <= table[pid].time || now <= table[pid].timestamp) ==>
              r.percent == 0.0
    // otherwise the share over the last interval, clamped to [0, 100]
    ensures reading.Some? && pid in table && reading.value > table[pid].time && now > table[pid].timestamp ==>
              r.percent == Clamp(RawPercent(reading.value - table[pid].time, now - table[pid].timestamp, numCPUs))
  {
    match reading
    case None => CpuSample(table, 0.0)
    case Some(currentTime) =>
      var stored := table[pid := CpuBaseline(currentTime, now)];
      if pid !in table then CpuSample(stored, 0.0)
      else
        var previous := table[pid];
        var deltaTime := now - previous.timestamp;
        var deltaCPUTime: nat := if currentTime > previous.time then currentTime - previous.time else 0;
        if deltaTime <= 0.0 then CpuSample(stored, 0.0)
        else
          RawPercentNonNegative(deltaCPUTime, deltaTime, numCPUs);
          CpuSample(stored, Clamp(RawPercent(deltaCPUTime, deltaTime, numCPUs)))
  }

  /** Two readings of the same cumulative time: the idle steady state reports 0. */
  lemma IdleProcessReportsZero(table: CpuTable, pid: Int32, now: real, numCPUs: real)
    requires numCPUs >= 1.0 && pid in table
    ensures SampleCpu(table, pid, Some(table[pid].time), now, numCPUs).percent == 0.0
  {
  }

  /** The entries of `table` whose pid is in `live`: the purge after a sampling pass. */
  function Purge(table: CpuTable, live: set<Int32>): (r: CpuTable)
    ensures r.Keys == table.Keys * live
    ensures forall pid :: pid in r ==> r[pid] == table[pid]
  {
    map pid | pid in table && pid in live :: table[pid]
  }

  /** A purged pid comes back as a first sighting: it reports 0 and gets a fresh baseline. */
  lemma PurgedPidStartsOver(table: CpuTable, live: set<Int32>, pid: Int32, time: nat, now: real, numCPUs: real)
    requires numCPUs >= 1.0 && pid !in live
    ensures var r := SampleCpu(Purge(table, live), pid, Some(time), now, numCPUs);
            r.percent == 0.0 && r.table[pid] == CpuBaseline(time, now)
  {
  }
}
