/** Validated configuration of a training test (src/config.py, class TestConfig). */
module Config {
  import opened Wrappers
  import Constants

  /** The six numeric fields, in the order in which they are validated. */
  datatype Field =
    | InitSpeed
    | IntervalDistance
    | StageDuration
    | StageThreshold
    | SpeedIncrement
    | MaxSpeed
  {
    /** The parameter name the error message reports. */
    function Name(): string
    {
      match this
      case InitSpeed => "init_speed_in_km_per_hour"
      case IntervalDistance => "interval_distance_in_meters"
      case StageDuration => "stage_duration_in_sec"
      case StageThreshold => "stage_duration_threshold_in_sec"
      case SpeedIncrement => "stage_speed_increment"
      case MaxSpeed => "max_speed"
    }
  }

  /** ConfigurationError: a non-positive field, or a maximum below the initial speed. */
  datatype ConfigError = NotPositive(field: Field) | MaxBelowInit

  datatype TestConfig = TestConfig(
    initSpeedKmh: real,
    initSpeedMs: real,
    intervalDistance: int,
    stageDuration: int,
    stageThreshold: int,
    speedIncrement: real,
    maxSpeed: real,
    enableCache: bool,
    cacheDir: string)
  {
    /** What every configuration built by NewConfig satisfies. */
    predicate Valid()
    {
      && initSpeedKmh > 0.0
      && intervalDistance > 0
      && stageDuration > 0
      && stageThreshold > 0
      && speedIncrement > 0.0
      && maxSpeed > 0.0
      && maxSpeed >= initSpeedKmh
      && initSpeedMs == initSpeedKmh / 3.6
      && cacheDir != ""
    }
  }

  /** `_validate_positive`: no error exactly when the value is positive. */
  function ValidatePositive(field: Field, value: real): (r: Option<ConfigError>)
    ensures r.None? <==> value > 0.0
    ensures r.Some? ==> r.value == NotPositive(field)
  {
    if value <= 0.0 then Some(NotPositive(field)) else None
  }

  /** Default cache location when none, or an empty one, is given. */
  function CacheDirOrDefault(cacheDir: Option<string>): (d: string)
    ensures d != ""
    ensures cacheDir.Some? && cacheDir.value != "" ==> d == cacheDir.value
    ensures cacheDir.None? || cacheDir.value == "" ==> d == Constants.DefaultCacheDir
  {
    if cacheDir.Some? && cacheDir.value != "" then cacheDir.value else Constants.DefaultCacheDir
  }

  /** The first of two checks that fails, as raising at the first failure does. */
  function FirstOf(first: Option<ConfigError>, rest: Option<ConfigError>): Option<ConfigError>
  {
    if first.Some? then first else rest
  }

  /** `TestConfig.__init__`: the positive checks in declaration order, then max >= init,
      then the stored and derived fields. */
  function NewConfig(
    initSpeedKmh: real,
    intervalDistance: int,
    stageDuration: int,
    stageThreshold: int,
    speedIncrement: real,
    maxSpeed: real,
    enableCache: bool := true,
    cacheDir: Option<string> := None): (r: Result<TestConfig, ConfigError>)
    // the first offending field is the one reported
    ensures r == Err(NotPositive(InitSpeed)) <==> initSpeedKmh <= 0.0
    ensures r == Err(NotPositive(IntervalDistance)) <==>
      initSpeedKmh > 0.0 && intervalDistance <= 0
    ensures r == Err(NotPositive(StageDuration)) <==>
      initSpeedKmh > 0.0 && intervalDistance > 0 && stageDuration <= 0
    ensures r == Err(NotPositive(StageThreshold)) <==>
      initSpeedKmh > 0.0 && intervalDistance > 0 && stageDuration > 0 && stageThreshold <= 0
    ensures r == Err(NotPositive(SpeedIncrement)) <==>
      initSpeedKmh > 0.0 && intervalDistance > 0 && stageDuration > 0 && stageThreshold > 0
      && speedIncrement <= 0.0
    ensures r == Err(NotPositive(MaxSpeed)) <==>
      initSpeedKmh > 0.0 && intervalDistance > 0 && stageDuration > 0 && stageThreshold > 0
      && speedIncrement > 0.0 && maxSpeed <= 0.0
    ensures r == Err(MaxBelowInit) <==>
      initSpeedKmh > 0.0 && intervalDistance > 0 && stageDuration > 0 && stageThreshold > 0
      && speedIncrement > 0.0 && maxSpeed > 0.0 && maxSpeed < initSpeedKmh
    // success: every supplied value is stored unchanged, the m/s speed is derived
    ensures r.Ok? <==>
      initSpeedKmh > 0.0 && intervalDistance > 0 && stageDuration > 0 && stageThreshold > 0
      && speedIncrement > 0.0 && maxSpeed > 0.0 && maxSpeed >= initSpeedKmh
    ensures r.Ok? ==> r.value.Valid()
    ensures r.Ok? ==>
      && r.value.initSpeedKmh == initSpeedKmh
      && r.value.intervalDistance == intervalDistance
      && r.value.stageDuration == stageDuration
      && r.value.stageThreshold == stageThreshold
      && r.value.speedIncrement == speedIncrement
      && r.value.maxSpeed == maxSpeed
      && r.value.enableCache == enableCache
      && r.value.initSpeedMs * 3.6 == initSpeedKmh
      && r.value.cacheDir == CacheDirOrDefault(cacheDir)
  {
    var failure :=
      FirstOf(ValidatePositive(InitSpeed, initSpeedKmh),
      FirstOf(ValidatePositive(IntervalDistance, intervalDistance as real),
      FirstOf(ValidatePositive(StageDuration, stageDuration as real),
      FirstOf(ValidatePositive(StageThreshold, stageThreshold as real),
      FirstOf(ValidatePositive(SpeedIncrement, speedIncrement),
      FirstOf(ValidatePositive(MaxSpeed, maxSpeed),
              if maxSpeed < initSpeedKmh then Some(MaxBelowInit) else None))))));
    if failure.Some? then Err(failure.value)
    else
      Ok(TestConfig(
        initSpeedKmh, initSpeedKmh / 3.6, intervalDistance, stageDuration, stageThreshold,
        speedIncrement, maxSpeed, enableCache, CacheDirOrDefault(cacheDir)))
  }

  /** Caching is on unless the caller turns it off, and the cache directory defaults to
      ".cache": so for every configuration built with neither argument. */
  lemma DefaultsApply(initSpeedKmh: real, intervalDistance: int, stageDuration: int,
                      stageThreshold: int, speedIncrement: real, maxSpeed: real)
    requires NewConfig(initSpeedKmh, intervalDistance, stageDuration, stageThreshold, speedIncrement, maxSpeed).Ok?
    ensures var config := NewConfig(initSpeedKmh, intervalDistance, stageDuration, stageThreshold,
                                    speedIncrement, maxSpeed).value;
      config.enableCache && config.cacheDir == Constants.DefaultCacheDir
  {
  }
}
