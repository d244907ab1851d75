/**
 * The kernel's scheduling arithmetic: whether a process may run this tick,
 * given the CPU bucket, recent CPU use and the process's interval and
 * priority; plus the per-process statistics it keeps, the emergency brake and
 * the logger registry.
 */
module Hivemind {
  import opened Common

  const PriorityLow := 1.0
  const PriorityDefault := 2.0
  const PriorityHigh := 3.0
  const PriorityAlways := 10.0

  /** The readings of `Game` the scheduler uses in one call. */
  datatype Clock = Clock(time: int, used: real, limit: real, tickLimit: real)

  /** The kernel's view of the tick: the bucket and last ticks' CPU use relative to the limit. */
  datatype Load = Load(bucket: real, cpuUsage: real)

  /** A `priorityEffects` entry: the default throttle and stop levels of a priority. */
  datatype Effect = Effect(throttleAt: real, stopAt: real)

  /** `priorityEffects`; any other priority has no entry. */
  function Effects(priority: real): (e: Option<Effect>)
    ensures e.Some? <==> priority in {PriorityLow, PriorityDefault, PriorityHigh, PriorityAlways}
    ensures e.Some? ==> 0.0 <= e.value.stopAt <= e.value.throttleAt
    ensures priority == PriorityAlways ==> e == Some(Effect(0.0, 0.0))
  {
    if priority == PriorityLow then Some(Effect(9500.0, 5000.0))
    else if priority == PriorityDefault then Some(Effect(8000.0, 3000.0))
    else if priority == PriorityHigh then Some(Effect(5000.0, 500.0))
    else if priority == PriorityAlways then Some(Effect(0.0, 0.0))
    else None
  }

  /** A product with a positive factor is positive only if the other factor is. */
  lemma PositiveFactor(d: real, w: real)
    requires w > 0.0 && d * w > 0.0
    ensures d > 0.0
  {
  }

  /** A positive part of a larger whole is a fraction strictly between 0 and 1, and the whole over the part exceeds 1. */
  lemma RatioBelowOne(part: real, whole: real)
    requires 0.0 < part < whole
    ensures 0.0 < part / whole < 1.0
    ensures whole / part > 1.0
  {
    var q := part / whole;
    assert q * whole == part;
    PositiveFactor(q, whole);
    assert (1.0 - q) * whole == whole - part;
    PositiveFactor(1.0 - q, whole);
    var inverse := whole / part;
    assert inverse * part == whole;
    assert (inverse - 1.0) * part == whole - part;
    PositiveFactor(inverse - 1.0, part);
  }

  /** A throttle multiplier: a number, or the infinity a division by zero yields. */
  datatype Multiplier = Finite(value: real) | Infinite

  /**
   * `getThrottleMultiplier`: at least last ticks' CPU ratio, raised as this
   * tick's use climbs from half the limit towards the tick limit, and raised
   * again as the bucket falls from `throttleAt` towards `stopAt`; 99999 once
   * the bucket is at or below `stopAt`. A use at exactly the tick limit
   * divides by zero (infinity); equal throttle bounds divide by zero inside
   * the ratio, which leaves a zero multiplier.
   */
  function ThrottleMultiplier(load: Load, clock: Clock, stopAt: real, throttleAt: real): (m: Multiplier)
    ensures load.bucket <= stopAt ==> m == Finite(99999.0)
    ensures load.bucket > stopAt && clock.used < clock.tickLimit ==> m.Finite? && m.value >= 1.0
    ensures load.bucket > stopAt && load.bucket >= throttleAt && clock.used <= clock.limit / 2.0 ==>
              m == Finite(Max(load.cpuUsage, 1.0))
  {
    if load.bucket <= stopAt then Finite(99999.0)
    else
      var base := Max(load.cpuUsage, 1.0);
      var minThrottle := clock.limit / 2.0;
      var maxThrottle := clock.tickLimit;
      var byUse :=
        if clock.used <= minThrottle then Finite(base)
        else if maxThrottle == minThrottle then Finite(0.0)
        else if clock.used == maxThrottle then Infinite
        else Finite(base / (1.0 - (clock.used - minThrottle) / (maxThrottle - minThrottle)));
      assert clock.used < clock.tickLimit && byUse.Finite? ==> byUse.value >= 1.0 by {
        if clock.used < clock.tickLimit && clock.used > minThrottle {
          var q := (clock.used - minThrottle) / (maxThrottle - minThrottle);
          RatioBelowOne(clock.used - minThrottle, maxThrottle - minThrottle);
          assert 0.0 < q < 1.0;
          assert base / (1.0 - q) >= base;
        }
      }
      if load.bucket < throttleAt then
        match byUse
        case Finite(t) =>
          var factor := (throttleAt - stopAt) / (load.bucket - stopAt);
          RatioBelowOne(load.bucket - stopAt, throttleAt - stopAt);
          assert factor > 1.0;
          Finite(t * factor)
        case Infinite => Infinite
      else byUse
  }

  /**
   * `hasIntervalPassed`: an interval of 0 means "once per tick"; otherwise the
   * interval must have elapsed, stretched by the throttle multiplier.
   */
  function IntervalPassed(load: Load, clock: Clock, interval: real, startTime: int, stopAt: real, throttleAt: real): (r: bool)
    ensures interval == 0.0 ==> (r <==> clock.time != startTime)
    ensures interval != 0.0 && ((clock.time - startTime) as real) < interval ==> !r
  {
    if interval == 0.0 then clock.time != startTime
    else
      var elapsed := (clock.time - startTime) as real;
      if elapsed < interval then false
      else match ThrottleMultiplier(load, clock, stopAt, throttleAt)
        case Finite(m) => !(elapsed < interval * m)
        case Infinite => !(interval > 0.0)
  }

  /** With a full bucket, an idle tick and no backlog the multiplier is 1, so a positive interval passes exactly when it has elapsed. */
  lemma UnthrottledInterval(load: Load, clock: Clock, interval: real, startTime: int, stopAt: real, throttleAt: real)
    requires load.bucket > stopAt && load.bucket >= throttleAt
    requires clock.used <= clock.limit / 2.0 && load.cpuUsage <= 1.0
    requires interval > 0.0
    ensures IntervalPassed(load, clock, interval, startTime, stopAt, throttleAt) <==> (clock.time - startTime) as real >= interval
  {
    assert ThrottleMultiplier(load, clock, stopAt, throttleAt) == Finite(1.0);
  }

  /** A process's options; every field may be missing. */
  datatype Options = Options(interval: Option<real>, priority: Option<real>, stopAt: Option<real>, throttleAt: Option<real>)

  /**
   * A bound (`stopAt` or `throttleAt`) as `options.x || priorityEffects[priority].x || 0`:
   * an explicit 0 falls through to the table, and a missing table entry
   * throws (`None`) when it is reached.
   */
  function Bound(explicit: Option<real>, fromTable: Option<real>): (r: Option<real>)
    ensures Truthy(explicit) ==> r == explicit
    ensures !Truthy(explicit) ==> r == fromTable
  {
    if Truthy(explicit) then explicit else fromTable
  }

  /** The priority a process runs at: `options.priority || PROCESS_PRIORITY_DEFAULT`. */
  function PriorityOf(options: Options): real
  {
    OrElse(options.priority, PriorityDefault)
  }

  /** The effective stop level: the explicit one, else the priority's table entry; `None` when that entry is missing. */
  function StopLevel(options: Options): (r: Option<real>)
    ensures Truthy(options.stopAt) ==> r == options.stopAt
    ensures !Truthy(options.stopAt) && Effects(PriorityOf(options)).Some? ==>
              r == Some(Effects(PriorityOf(options)).value.stopAt)
    ensures !Truthy(options.stopAt) && r.Some? ==> r.value >= 0.0
  {
    var effect := Effects(PriorityOf(options));
    Bound(options.stopAt, if effect.Some? then Some(effect.value.stopAt) else None)
  }

  /** The effective throttle level, resolved like `StopLevel`. */
  function ThrottleLevel(options: Options): (r: Option<real>)
    ensures Truthy(options.throttleAt) ==> r == options.throttleAt
    ensures !Truthy(options.throttleAt) && Effects(PriorityOf(options)).Some? ==>
              r == Some(Effects(PriorityOf(options)).value.throttleAt)
  {
    var effect := Effects(PriorityOf(options));
    Bound(options.throttleAt, if effect.Some? then Some(effect.value.throttleAt) else None)
  }

  /**
   * The decision once the options are resolved; `interval` is the resolved
   * interval: refused at or below the stop level; above it, always allowed
   * for interval 0 or priority ALWAYS, and otherwise allowed only once the
   * interval has elapsed since the last run.
   */
  function Decide(load: Load, clock: Clock, interval: real, priority: real, stopAt: real, throttleAt: real, lastRun: int): (r: bool)
    ensures r ==> load.bucket > stopAt
    ensures load.bucket > stopAt && (interval == 0.0 || priority == PriorityAlways) ==> r
    ensures r && interval != 0.0 && priority != PriorityAlways ==> (clock.time - lastRun) as real >= interval
  {
    if load.bucket <= stopAt then false
    else if interval == 0.0 || priority == PriorityAlways then true
    else IntervalPassed(load, clock, interval, lastRun, stopAt, throttleAt)
  }

  /**
   * The promise of `isProcessAllowedToRun` for a resolved `interval`: an
   * error exactly when a level cannot be resolved; never run at or below the
   * effective stop level; above it always run for interval 0 or priority
   * ALWAYS; otherwise run exactly when `hasIntervalPassed` holds at the
   * effective levels.
   */
  ghost predicate Gated(load: Load, clock: Clock, options: Options, lastRun: int, interval: real, r: Option<bool>)
  {
    (r.None? <==> StopLevel(options).None? || ThrottleLevel(options).None?) &&
    (r.Some? ==>
       var stopAt := StopLevel(options).value;
       var throttleAt := ThrottleLevel(options).value;
       (load.bucket <= stopAt ==> !r.value) &&
       (load.bucket > stopAt && (interval == 0.0 || PriorityOf(options) == PriorityAlways) ==> r.value) &&
       (load.bucket > stopAt && interval != 0.0 && PriorityOf(options) != PriorityAlways ==>
          r.value == IntervalPassed(load, clock, interval, lastRun, stopAt, throttleAt)))
  }

  /**
   * `isProcessAllowedToRun` as written: the interval is resolved with `||`,
   * so an explicit interval of 0 becomes 1 and the "interval is 0" branch
   * is never taken. `None` is the error thrown for a priority without a
   * table entry.
   */
  function AllowedToRunAsWritten(load: Load, clock: Clock, options: Options, lastRun: int): (r: Option<bool>)
    ensures Gated(load, clock, options, lastRun, OrElse(options.interval, 1.0), r)
    ensures r.Some? && load.bucket <= OrElse(options.stopAt, 0.0) ==> !r.value
  {
    var stopAt := StopLevel(options);
    var throttleAt := ThrottleLevel(options);
    if stopAt.None? || throttleAt.None? then None
    else Some(Decide(load, clock, OrElse(options.interval, 1.0), PriorityOf(options), stopAt.value, throttleAt.value, lastRun))
  }

  /** As written, a process asking for interval 0 whose last run is the current tick is refused, although interval 0 is documented to mean "may run several times a tick". */
  lemma IntervalZeroRefused()
    ensures AllowedToRunAsWritten(Load(10000.0, 1.0), Clock(7, 0.0, 20.0, 500.0), Options(Some(0.0), None, None, None), 7) == Some(false)
  {
    var load := Load(10000.0, 1.0);
    var clock := Clock(7, 0.0, 20.0, 500.0);
    assert ThrottleMultiplier(load, clock, 3000.0, 8000.0) == Finite(1.0);
  }

  /** The interval with an explicit 0 kept: only a missing interval defaults to 1. */
  function IntervalKept(options: Options): real
  {
    if options.interval.Some? then options.interval.value else 1.0
  }

  /**
   * `isProcessAllowedToRun` with the interval resolved so that an explicit 0
   * is kept (only a missing interval defaults to 1): never allowed when the
   * bucket is at or below the effective stop level; always allowed above it
   * for interval 0 or priority ALWAYS; otherwise allowed when the throttled
   * interval has passed since the last run.
   */
  function AllowedToRun(load: Load, clock: Clock, options: Options, lastRun: int): (r: Option<bool>)
    ensures Gated(load, clock, options, lastRun, IntervalKept(options), r)
    ensures r.None? <==> Effects(PriorityOf(options)).None? &&
                         (!Truthy(options.stopAt) || !Truthy(options.throttleAt))
    ensures r.Some? && load.bucket <= OrElse(options.stopAt, 0.0) ==> !r.value
    ensures (r.Some? && options.interval.Some? && options.interval.value > 0.0 &&
             ((clock.time - lastRun) as real) < options.interval.value &&
             PriorityOf(options) != PriorityAlways) ==> !r.value
  {
    var stopAt := StopLevel(options);
    var throttleAt := ThrottleLevel(options);
    if stopAt.None? || throttleAt.None? then None
    else Some(Decide(load, clock, IntervalKept(options), PriorityOf(options), stopAt.value, throttleAt.value, lastRun))
  }

  /** With the interval kept, the process of `IntervalZeroRefused` runs. */
  lemma IntervalZeroRuns()
    ensures AllowedToRun(Load(10000.0, 1.0), Clock(7, 0.0, 20.0, 500.0), Options(Some(0.0), None, None, None), 7) == Some(true)
  {
  }

  /** The two readings differ only on an explicit interval of 0. */
  lemma AllowedToRunAgrees(load: Load, clock: Clock, options: Options, lastRun: int)
    requires options.interval != Some(0.0)
    ensures AllowedToRun(load, clock, options, lastRun) == AllowedToRunAsWritten(load, clock, options, lastRun)
  {
  }

  /** A process's entry in `memory.process`, shared by reference with whoever holds it. */
  class ProcessStats {
    var lastRun: int
    var parentId: Option<string>
    var cpu: real
    var lastCpu: real

    constructor()
      ensures lastRun == 0 && parentId.None? && cpu == 0.0 && lastCpu == 0.0
    {
      lastRun, parentId, cpu, lastCpu := 0, None, 0.0, 0.0;
    }
  }

  /** A logging channel for one category. */
  class Logger {
    const channel: string
    const category: string

    constructor(channel: string, category: string)
      ensures this.channel == channel && this.category == category
    {
      this.channel := channel;
      this.category := category;
    }
  }

  /** The CPU average after one more run: the first sample seeds it, later ones weigh 1 in 100. */
  function AverageCpu(previous: real, usage: real): (r: real)
    ensures previous == 0.0 ==> r == usage
    ensures previous != 0.0 ==> r == previous + (usage - previous) / 100.0
  {
    (if previous != 0.0 then previous else usage) * 0.99 + usage * 0.01
  }

  class Kernel {
    var load: Load
    /** `memory.process`: statistics by process id. */
    var process: map<string, ProcessStats>
    var parentProcessId: string
    var emergencyBrakeProcessId: Option<string>
    var loggers: map<string, map<string, Logger>>

    constructor(load: Load)
      ensures this.load == load && process == map[] && parentProcessId == "root"
      ensures emergencyBrakeProcessId.None? && loggers == map[]
    {
      this.load := load;
      process := map[];
      parentProcessId := "root";
      emergencyBrakeProcessId := None;
      loggers := map[];
    }

    /**
     * `isProcessAllowedToRun` on this tick's load, as written: the interval
     * is `options.interval || 1`, so an explicit 0 is read as 1.
     */
    function IsProcessAllowedToRun(stats: ProcessStats, options: Options, clock: Clock): (r: Option<bool>)
      reads this, stats
      ensures Gated(load, clock, options, stats.lastRun, OrElse(options.interval, 1.0), r)
      ensures options.interval != Some(0.0) ==> r == AllowedToRun(load, clock, options, stats.lastRun)
    {
      if options.interval == Some(0.0) then AllowedToRunAsWritten(load, clock, options, stats.lastRun)
      else
        AllowedToRunAgrees(load, clock, options, stats.lastRun);
        AllowedToRunAsWritten(load, clock, options, stats.lastRun)
    }

    /** `initializeProcessStats`: the entry for `id`, created zeroed when missing, the same object on every call. */
    method InitializeProcessStats(id: string) returns (stats: ProcessStats)
      modifies this
      ensures id in process && stats == process[id]
      ensures id in old(process) ==> stats == old(process)[id] && process == old(process)
      ensures id !in old(process) ==>
                fresh(stats) && process == old(process)[id := stats] &&
                stats.lastRun == 0 && stats.cpu == 0.0 && stats.lastCpu == 0.0
      ensures load == old(load) && parentProcessId == old(parentProcessId)
      ensures emergencyBrakeProcessId == old(emergencyBrakeProcessId) && loggers == old(loggers)
    {
      if id !in process {
        var created := new ProcessStats();
        process := process[id := created];
      }
      stats := process[id];
    }

    /**
     * `pullEmergengyBrake`: refuses every process once this tick's use is
     * above 85% of the tick limit, remembering the first process refused.
     */
    method PullEmergencyBrake(id: string, clock: Clock) returns (brake: bool)
      modifies this
      ensures brake <==> clock.used > clock.tickLimit * 0.85
      ensures brake && !Named(old(emergencyBrakeProcessId)) ==> emergencyBrakeProcessId == Some(id)
      ensures !brake || Named(old(emergencyBrakeProcessId)) ==> emergencyBrakeProcessId == old(emergencyBrakeProcessId)
      ensures load == old(load) && process == old(process) && parentProcessId == old(parentProcessId)
      ensures loggers == old(loggers)
    {
      if clock.used > clock.tickLimit * 0.85 {
        if !Named(emergencyBrakeProcessId) {
          emergencyBrakeProcessId := Some(id);
        }
        return true;
      }
      return false;
    }

    /**
     * `timeProcess` around a callback that used `cpuBefore` to `cpuAfter`:
     * stamps the run, records the parent, folds the usage into the CPU
     * average and into this tick's total, and restores the parent id.
     */
    method TimeProcess(id: string, stats: ProcessStats, time: int, cpuBefore: real, cpuAfter: real)
      requires id in process && process[id] == stats
      modifies this, stats
      ensures stats.lastRun == time
      ensures stats.parentId == Some(old(parentProcessId))
      ensures parentProcessId == old(parentProcessId)
      ensures stats.cpu == AverageCpu(old(stats.cpu), cpuAfter - cpuBefore)
      ensures old(stats.lastRun) == time ==> stats.lastCpu == old(stats.lastCpu) + (cpuAfter - cpuBefore)
      ensures old(stats.lastRun) != time ==> stats.lastCpu == cpuAfter - cpuBefore
      ensures process == old(process) && load == old(load)
      ensures emergencyBrakeProcessId == old(emergencyBrakeProcessId) && loggers == old(loggers)
    {
      var prevRunTime := stats.lastRun;
      stats.lastRun := time;
      stats.parentId := Some(parentProcessId);
      parentProcessId := id;
      parentProcessId := stats.parentId.value;
      var usage := cpuAfter - cpuBefore;
      var entry := process[id];
      entry.cpu := (if entry.cpu != 0.0 then entry.cpu else usage) * 0.99 + usage * 0.01;
      if prevRunTime == time {
        entry.lastCpu := entry.lastCpu + usage;
      } else {
        entry.lastCpu := usage;
      }
    }

    /** `log`: one logger per (category, channel), created on first use and reused after. */
    method Log(channel: string, category: string) returns (logger: Logger)
      modifies this
      ensures category in loggers && channel in loggers[category] && logger == loggers[category][channel]
      ensures category in old(loggers) && channel in old(loggers)[category] ==>
                logger == old(loggers)[category][channel] && loggers == old(loggers)
      ensures !(category in old(loggers) && channel in old(loggers)[category]) ==>
                fresh(logger) && logger.channel == channel && logger.category == category
      ensures forall c, n :: c in old(loggers) && n in old(loggers)[c] ==>
                c in loggers && n in loggers[c] && loggers[c][n] == old(loggers)[c][n]
      ensures load == old(load) && process == old(process) && parentProcessId == old(parentProcessId)
      ensures emergencyBrakeProcessId == old(emergencyBrakeProcessId)
    {
      if category !in loggers {
        loggers := loggers[category := map[]];
      }
      if channel !in loggers[category] {
        var created := new Logger(channel, category);
        loggers := loggers[category := loggers[category][channel := created]];
      }
      logger := loggers[category][channel];
    }
  }
}
