/** Interval progression engine (src/intervals.py): each interval is derived from its
    predecessor and the configuration; speeds, durations and times are exact reals. */
module Intervals {
  import opened Wrappers
  import opened Config
  import Constants

  /** IntervalParams: one fixed-distance segment at a constant speed. */
  datatype Interval = Interval(
    durationSec: real,
    distance: int,
    totalDurationAtStart: real,
    totalDurationAtEnd: real,
    totalDistanceAtStart: int,
    totalDistanceAtEnd: int,
    stageTimeAtStart: real,
    stageTimeAtEnd: real,
    speedMs: real,
    speedKmh: real,
    endsStage: bool)

  /** IntervalGenerationError. */
  datatype IntervalError = NonPositiveSpeed(speedMs: real)

  function Abs(x: real): real
  {
    if x < 0.0 then -x else x
  }

  /** `duration_from_speed_and_distance`: fails exactly on a non-positive speed; otherwise
      the duration is the time needed to cover the distance at that speed. */
  function DurationFromSpeedAndDistance(speedMs: real, distance: int): (r: Result<real, IntervalError>)
    ensures r.Err? <==> speedMs <= 0.0
    ensures r.Err? ==> r.error == NonPositiveSpeed(speedMs)
    ensures r.Ok? ==> r.value * speedMs == distance as real
    ensures r.Ok? && distance > 0 ==> r.value > 0.0
  {
    if speedMs <= 0.0 then Err(NonPositiveSpeed(speedMs)) else Ok(distance as real / speedMs)
  }

  /** `move_to_next_stage`, on the interval's end-of-interval in-stage time: past the
      target always moves on; without a positive tolerance, nothing else does. */
  function MoveToNextStage(iv: Interval, config: TestConfig): (r: bool)
    ensures iv.stageTimeAtEnd > config.stageDuration as real ==> r
    ensures config.stageThreshold <= 0 ==> (r <==> iv.stageTimeAtEnd > config.stageDuration as real)
  {
    var t := iv.stageTimeAtEnd;
    t > config.stageDuration as real
    || Abs(t - config.stageDuration as real) < config.stageThreshold as real
  }

  /** With a positive tolerance the rule flips a stage as soon as the in-stage time passes
      T - tolerance, i.e. possibly before T is reached; exactly at T - tolerance it does not. */
  lemma MoveToNextStageEarly(iv: Interval, config: TestConfig)
    requires config.stageThreshold > 0
    ensures MoveToNextStage(iv, config) <==>
      iv.stageTimeAtEnd > (config.stageDuration - config.stageThreshold) as real
  {
  }

  /** The three cases pinned down by the unit tests (T = 60, tolerance = 5). */
  lemma MoveToNextStageExamples(config: TestConfig, iv: Interval)
    requires config.stageDuration == 60 && config.stageThreshold == 5
    ensures MoveToNextStage(iv.(stageTimeAtEnd := 65.0), config)
    ensures MoveToNextStage(iv.(stageTimeAtEnd := 58.0), config)
    ensures !MoveToNextStage(iv.(stageTimeAtEnd := 50.0), config)
    ensures !MoveToNextStage(iv.(stageTimeAtEnd := 55.0), config)
  {
  }

  /** The next interval's km/h speed: raised by the increment after a stage end. */
  function NextSpeedKmh(prev: Interval, config: TestConfig): real
  {
    if prev.endsStage then prev.speedKmh + config.speedIncrement else prev.speedKmh
  }

  /** `create_initial_interval`. */
  function InitialInterval(config: TestConfig): (r: Result<Interval, IntervalError>)
    ensures r.Err? <==> config.initSpeedMs <= 0.0
    ensures r.Ok? ==>
      var iv := r.value;
      // starts at zero in every cumulative measure
      && iv.totalDurationAtStart == 0.0 && iv.totalDistanceAtStart == 0 && iv.stageTimeAtStart == 0.0
      // its end totals are its own duration and distance
      && iv.totalDurationAtEnd == iv.durationSec && iv.stageTimeAtEnd == iv.durationSec
      && iv.totalDistanceAtEnd == iv.distance == config.intervalDistance
      && iv.durationSec * iv.speedMs == config.intervalDistance as real
      && iv.speedMs == config.initSpeedMs
      && (config.Valid() ==> iv.speedKmh == config.initSpeedKmh && iv.durationSec > 0.0)
      && iv.endsStage == MoveToNextStage(iv, config)
  {
    match DurationFromSpeedAndDistance(config.initSpeedMs, config.intervalDistance)
    case Err(e) => Err(e)
    case Ok(d) =>
      var iv := Interval(
        d, config.intervalDistance, 0.0, d, 0, config.intervalDistance, 0.0, d,
        config.initSpeedMs, config.initSpeedMs * 3.6, false);
      Ok(iv.(endsStage := MoveToNextStage(iv, config)))
  }

  /** `create_next_interval`. */
  function NextInterval(prev: Interval, config: TestConfig): (r: Result<Interval, IntervalError>)
    ensures r.Err? <==> NextSpeedKmh(prev, config) <= 0.0
    ensures r.Ok? ==>
      var iv := r.value;
      // speed rises by exactly the increment after a stage end, and is kept otherwise
      && iv.speedKmh == (if prev.endsStage then prev.speedKmh + config.speedIncrement else prev.speedKmh)
      && iv.speedMs * 3.6 == iv.speedKmh
      && iv.distance == config.intervalDistance
      && iv.durationSec * iv.speedMs == config.intervalDistance as real
      && (config.intervalDistance > 0 ==> iv.durationSec > 0.0)
      // totals carry forward from the predecessor's end values
      && iv.totalDurationAtStart == prev.totalDurationAtEnd
      && iv.totalDurationAtEnd == iv.totalDurationAtStart + iv.durationSec
      && iv.totalDistanceAtStart == prev.totalDistanceAtEnd
      && iv.totalDistanceAtEnd == iv.totalDistanceAtStart + iv.distance
      // in-stage time restarts after a stage end, and accumulates otherwise
      && iv.stageTimeAtStart == (if prev.endsStage then 0.0 else prev.stageTimeAtEnd)
      && iv.stageTimeAtEnd == iv.stageTimeAtStart + iv.durationSec
      && iv.endsStage == MoveToNextStage(iv, config)
  {
    var kmh := NextSpeedKmh(prev, config);
    var ms := kmh / 3.6;
    match DurationFromSpeedAndDistance(ms, config.intervalDistance)
    case Err(e) => Err(e)
    case Ok(d) =>
      var stageStart := if !prev.endsStage then prev.stageTimeAtEnd else 0.0;
      var iv := Interval(
        d, config.intervalDistance,
        prev.totalDurationAtEnd, prev.totalDurationAtEnd + d,
        prev.totalDistanceAtEnd, prev.totalDistanceAtEnd + config.intervalDistance,
        stageStart, stageStart + d, ms, kmh, false);
      Ok(iv.(endsStage := MoveToNextStage(iv, config)))
  }

  /** A front-to-back progression: the initial interval, then each one built from its
      predecessor. */
  ghost predicate IsChain(ivs: seq<Interval>, config: TestConfig)
  {
    && |ivs| >= 1
    && InitialInterval(config) == Ok(ivs[0])
    && (forall k :: 0 <= k < |ivs| - 1 ==> NextInterval(ivs[k], config) == Ok(ivs[k + 1]))
  }

  /** What `generate_intervals` returns: a chain of 1..100 intervals that stops at the first
      interval faster than the maximum, the last one being the only one allowed above it. */
  ghost predicate IsSchedule(ivs: seq<Interval>, config: TestConfig)
  {
    && IsChain(ivs, config)
    && |ivs| <= Constants.MaxIterations
    && (forall k :: 0 <= k < |ivs| - 1 ==> ivs[k].speedKmh <= config.maxSpeed)
    && (|ivs| < Constants.MaxIterations ==> ivs[|ivs| - 1].speedKmh > config.maxSpeed)
  }

  /** `generate_intervals`: reaching the iteration ceiling only logs a warning and returns
      what was produced; under a valid configuration generation never fails. */
  method GenerateIntervals(config: TestConfig) returns (r: Result<seq<Interval>, IntervalError>)
    ensures r.Ok? ==> IsSchedule(r.value, config)
    ensures config.Valid() ==> r.Ok?
  {
    var initial := InitialInterval(config);
    if initial.Err? {
      return Err(initial.error);
    }
    var intervals := [initial.value];
    var ival := 1;
    var next := initial.value;
    while ival < Constants.MaxIterations && next.speedKmh <= config.maxSpeed
      invariant 1 <= ival <= Constants.MaxIterations
      invariant |intervals| == ival
      invariant next == intervals[|intervals| - 1]
      invariant IsChain(intervals, config)
      invariant forall k :: 0 <= k < |intervals| - 1 ==> intervals[k].speedKmh <= config.maxSpeed
      invariant config.Valid() ==> next.speedKmh >= config.initSpeedKmh
    {
      var step := NextInterval(intervals[|intervals| - 1], config);
      if step.Err? {
        return Err(step.error);
      }
      next := step.value;
      intervals := intervals + [next];
      ival := ival + 1;
    }
    return Ok(intervals);
  }

  /** Interval i ends at cumulative distance exactly (i + 1) times the interval distance. */
  lemma {:induction false} ChainDistance(ivs: seq<Interval>, config: TestConfig, i: nat)
    requires IsChain(ivs, config)
    requires i < |ivs|
    ensures ivs[i].totalDistanceAtStart == i * config.intervalDistance
    ensures ivs[i].totalDistanceAtEnd == (i + 1) * config.intervalDistance
  {
    if i > 0 {
      ChainDistance(ivs, config, i - 1);
      assert NextInterval(ivs[i - 1], config) == Ok(ivs[i]);
    }
  }

  /** Speeds never decrease along a chain under a valid configuration, and stay above the
      initial speed. */
  lemma {:induction false} ChainSpeedAtLeastInitial(ivs: seq<Interval>, config: TestConfig, i: nat)
    requires config.Valid() && IsChain(ivs, config)
    requires i < |ivs|
    ensures ivs[i].speedKmh >= config.initSpeedKmh
    ensures ivs[i].durationSec > 0.0
  {
    if i > 0 {
      ChainSpeedAtLeastInitial(ivs, config, i - 1);
      assert NextInterval(ivs[i - 1], config) == Ok(ivs[i]);
    }
  }

  /** Cumulative end time is strictly increasing along the sequence. */
  lemma {:induction false} ChainTimeIncreasing(ivs: seq<Interval>, config: TestConfig, i: nat, j: nat)
    requires config.Valid() && IsChain(ivs, config)
    requires i < j < |ivs|
    ensures ivs[i].totalDurationAtEnd < ivs[j].totalDurationAtEnd
  {
    assert NextInterval(ivs[j - 1], config) == Ok(ivs[j]);
    ChainSpeedAtLeastInitial(ivs, config, j);
    if i < j - 1 {
      ChainTimeIncreasing(ivs, config, i, j - 1);
    }
  }

  /** Number of stage-ending intervals strictly before index k. */
  function StagesBefore(ivs: seq<Interval>, k: nat): (n: nat)
    requires k <= |ivs|
    ensures n <= k
  {
    if k == 0 then 0 else StagesBefore(ivs, k - 1) + (if ivs[k - 1].endsStage then 1 else 0)
  }

  /** One link of a chain, as a fact about the two records. */
  lemma ChainLink(ivs: seq<Interval>, config: TestConfig, k: nat)
    requires IsChain(ivs, config)
    requires k + 1 < |ivs|
    ensures NextInterval(ivs[k], config) == Ok(ivs[k + 1])
    ensures ivs[k + 1].speedKmh == NextSpeedKmh(ivs[k], config)
  {
  }

  /** The speed of the n-th stage: the initial speed raised n times by the increment. */
  function StageSpeed(init: real, inc: real, n: nat): (v: real)
    ensures v == init + n as real * inc
  {
    if n == 0 then init else StageSpeed(init, inc, n - 1) + inc
  }

  /** Speeds follow the stage recurrence from the initial speed. */
  ghost predicate SpeedRecurrence(ivs: seq<Interval>, init: real, inc: real)
  {
    && |ivs| >= 1
    && ivs[0].speedKmh == init
    && forall k :: 0 <= k < |ivs| - 1 ==>
         ivs[k + 1].speedKmh == if ivs[k].endsStage then ivs[k].speedKmh + inc else ivs[k].speedKmh
  }

  lemma {:induction false} RecurrenceClosedForm(ivs: seq<Interval>, init: real, inc: real, k: nat)
    requires SpeedRecurrence(ivs, init, inc)
    requires k < |ivs|
    ensures ivs[k].speedKmh == StageSpeed(init, inc, StagesBefore(ivs, k))
  {
    if k > 0 {
      RecurrenceClosedForm(ivs, init, inc, k - 1);
    }
  }

  /** A chain under a valid configuration follows the stage recurrence. */
  lemma ChainRecurrence(ivs: seq<Interval>, config: TestConfig)
    requires config.Valid() && IsChain(ivs, config)
    ensures SpeedRecurrence(ivs, config.initSpeedKmh, config.speedIncrement)
  {
    assert InitialInterval(config) == Ok(ivs[0]);
    forall k | 0 <= k < |ivs| - 1
      ensures ivs[k + 1].speedKmh == NextSpeedKmh(ivs[k], config)
    {
      ChainLink(ivs, config, k);
    }
  }

  /** Closed form of the speed: interval k runs at the speed of the stage it belongs to, the
      initial speed plus one increment per stage completed before it. */
  lemma ChainSpeedClosedForm(ivs: seq<Interval>, config: TestConfig, k: nat)
    requires config.Valid() && IsChain(ivs, config)
    requires k < |ivs|
    ensures ivs[k].speedKmh == StageSpeed(config.initSpeedKmh, config.speedIncrement, StagesBefore(ivs, k))
  {
    ChainRecurrence(ivs, config);
    RecurrenceClosedForm(ivs, config.initSpeedKmh, config.speedIncrement, k);
  }

  /** Consecutive speeds are equal or differ by exactly the increment; the increment is
      applied exactly after a stage end. */
  lemma ChainSpeedSteps(ivs: seq<Interval>, config: TestConfig, k: nat)
    requires config.Valid() && IsChain(ivs, config)
    requires k + 1 < |ivs|
    ensures ivs[k + 1].speedKmh != ivs[k].speedKmh <==> ivs[k].endsStage
    ensures ivs[k + 1].speedKmh != ivs[k].speedKmh ==>
      ivs[k + 1].speedKmh - ivs[k].speedKmh == config.speedIncrement
  {
    assert NextInterval(ivs[k], config) == Ok(ivs[k + 1]);
  }

  /** Every generated speed is at most the maximum plus one increment. */
  lemma ScheduleSpeedBound(ivs: seq<Interval>, config: TestConfig, k: nat)
    requires config.Valid() && IsSchedule(ivs, config)
    requires k < |ivs|
    ensures ivs[k].speedKmh <= config.maxSpeed + config.speedIncrement
  {
    if k > 0 {
      assert NextInterval(ivs[k - 1], config) == Ok(ivs[k]);
      assert ivs[k - 1].speedKmh <= config.maxSpeed;
    } else {
      assert InitialInterval(config) == Ok(ivs[0]);
    }
  }

  /** Under a valid configuration the schedule has at least two intervals: the first runs at
      the initial speed, which never exceeds the maximum. */
  lemma ScheduleHasTwo(ivs: seq<Interval>, config: TestConfig)
    requires config.Valid() && IsSchedule(ivs, config)
    ensures |ivs| >= 2
    ensures ivs[0].speedKmh == config.initSpeedKmh
  {
    assert InitialInterval(config) == Ok(ivs[0]);
  }

  /** Worked example: init 8 km/h, 50 m, T = 60 s, tolerance 9 s — the first interval lasts
      22.5 s, covers 50 m and does NOT end a stage (|22.5 - 60| = 37.5 is not below 9). */
  lemma FirstIntervalExample(config: TestConfig)
    requires NewConfig(8.0, 50, 60, 9, 0.5, 25.0) == Ok(config)
    ensures InitialInterval(config).Ok?
    ensures InitialInterval(config).value.speedKmh == 8.0
    ensures InitialInterval(config).value.durationSec == 22.5
    ensures InitialInterval(config).value.totalDistanceAtEnd == 50
    ensures !InitialInterval(config).value.endsStage
  {
  }
}
