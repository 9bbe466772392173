/**
 * Derivation of CPU and memory utilisation from one Docker stats snapshot
 * (`_calculate_cpu_percent` and `_calculate_memory_percent` of the Docker
 * manager). Counters and byte counts are integers; percentages are reals,
 * standing in for Python floats.
 */
module Metrics {
  import opened Wrappers

  /** One reading of the cumulative counters: `cpu_usage.total_usage` and `system_cpu_usage`. */
  datatype CpuCounters = CpuCounters(totalUsage: int, systemUsage: int)

  /**
   * The fields of a stats payload the core reads. `cpu` is `cpu_stats`, `precpu`
   * is `precpu_stats`; `onlineCpus` and `percpuUsage` are optional keys, absent
   * when the daemon leaves them out.
   */
  datatype RawStats = RawStats(
    cpu: CpuCounters,
    precpu: CpuCounters,
    onlineCpus: Option<int>,
    percpuUsage: Option<seq<int>>,
    memoryUsage: int,
    memoryLimit: int)

  /** The derived utilisation of one container, in percent. */
  datatype Usage = Usage(cpu: real, memory: real)

  /** CPU time the container consumed between the two readings. */
  function CpuDelta(s: RawStats): int
  {
    s.cpu.totalUsage - s.precpu.totalUsage
  }

  /** CPU time the whole host consumed between the two readings. */
  function SystemDelta(s: RawStats): int
  {
    s.cpu.systemUsage - s.precpu.systemUsage
  }

  /**
   * The number of CPUs the ratio is scaled by: `online_cpus` when the key is
   * present, else the length of `percpu_usage`, else the length of the
   * one-element default list.
   */
  function CpuCount(s: RawStats): (n: int)
    ensures s.onlineCpus.Some? ==> n == s.onlineCpus.value
    ensures s.onlineCpus.None? && s.percpuUsage.Some? ==> n == |s.percpuUsage.value|
    ensures s.onlineCpus.None? && s.percpuUsage.None? ==> n == 1
  {
    match s.onlineCpus
    case Some(n) => n
    case None =>
      match s.percpuUsage
      case Some(perCpu) => |perCpu|
      case None => 1
  }

  /**
   * CPU utilisation: the container's share of host CPU time, scaled by the CPU
   * count and by 100, and exactly zero whenever the host counter did not advance.
   */
  function CpuPercent(s: RawStats): (pct: real)
    ensures SystemDelta(s) <= 0 ==> pct == 0.0
    ensures SystemDelta(s) > 0 ==>
      pct * (SystemDelta(s) as real) == (CpuDelta(s) as real) * (CpuCount(s) as real) * 100.0
    ensures CpuDelta(s) >= 0 && CpuCount(s) >= 0 ==> pct >= 0.0
  {
    var systemDelta := SystemDelta(s) as real;
    if systemDelta > 0.0 then
      var ratio := CpuDelta(s) as real / systemDelta;
      assert ratio * systemDelta == CpuDelta(s) as real;
      ratio * (CpuCount(s) as real) * 100.0
    else
      0.0
  }

  /** A container never uses more than all of its CPUs: the percentage is at most 100 per CPU. */
  lemma CpuPercentAtMostAllCpus(s: RawStats)
    requires 0 <= CpuDelta(s) <= SystemDelta(s)
    requires CpuCount(s) >= 0
    ensures CpuPercent(s) <= (CpuCount(s) as real) * 100.0
  {
  }

  /**
   * Memory utilisation `usage / limit * 100`. The source has no guard for a zero
   * limit; the division raises there, which is modelled as `None`.
   */
  function MemoryPercent(s: RawStats): (pct: Option<real>)
    ensures pct.None? <==> s.memoryLimit == 0
    ensures pct.Some? ==> pct.value * (s.memoryLimit as real) == (s.memoryUsage as real) * 100.0
  {
    if s.memoryLimit == 0 then None
    else
      var ratio := s.memoryUsage as real / s.memoryLimit as real;
      assert ratio * (s.memoryLimit as real) == s.memoryUsage as real;
      Some(ratio * 100.0)
  }

  /** Usage within a positive limit gives a percentage between 0 and 100. */
  lemma MemoryPercentWithinLimit(s: RawStats)
    requires 0 <= s.memoryUsage <= s.memoryLimit
    requires s.memoryLimit > 0
    ensures MemoryPercent(s).Some?
    ensures 0.0 <= MemoryPercent(s).value <= 100.0
  {
  }

  /**
   * Both metrics of one container, or `None` when deriving them raises (the
   * memory division by a zero limit), in which case the container is skipped.
   */
  function Derive(s: RawStats): (u: Option<Usage>)
    ensures u.None? <==> s.memoryLimit == 0
    ensures u.Some? ==> u.value.cpu == CpuPercent(s) && Some(u.value.memory) == MemoryPercent(s)
  {
    match MemoryPercent(s)
    case None => None
    case Some(memory) => Some(Usage(CpuPercent(s), memory))
  }
}
