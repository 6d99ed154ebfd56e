/** The configuration record of python/core/config.py: the fields the
    detection engine reads, and the validity checks run when a `Config` is
    constructed (`__post_init__`). File paths, colours and the visual/debug
    switches are not part of this model. */
module Configuration {

  datatype Config = Config(
    processFps: real,
    processWidth: int,
    skipFrames: int,
    inferenceBatchSize: int,
    preServeBuffer: real,
    postPointBuffer: real,
    minOccupiedZones: int,
    minHoldDuration: real,
    minPointDuration: real,
    minLowEnergyDuration: real,
    baseSensitivity: real,
    minDynamicThreshold: real,
    maxDynamicThreshold: real,
    rallyEnergyReq: real,
    walkEnergyCap: real,
    energySmoothingFactor: real,
    keypointConfidenceThreshold: real,
    maxSkeletonMatchDistance: real)

  /** The `ValueError` raised by `__post_init__`, one per check, in the order
      the checks run. */
  datatype ConfigError =
    | NonPositiveProcessFps
    | NegativeSkipFrames
    | BatchSizeBelowOne
    | ProcessWidthBelow100
    | SmoothingFactorOutOfRange
    | ThresholdBoundsInverted

  datatype Outcome = Pass | Fail(error: ConfigError)

  /** The constraints a constructed `Config` satisfies. */
  predicate Valid(c: Config)
  {
    && c.processFps > 0.0
    && c.skipFrames >= 0
    && c.inferenceBatchSize >= 1
    && c.processWidth >= 100
    && 0.0 < c.energySmoothingFactor <= 1.0
    && c.minDynamicThreshold <= c.maxDynamicThreshold
  }

  /** `__post_init__`: the checks run one after another and the first that
      fails raises. */
  function PostInit(c: Config): (r: Outcome)
    ensures r.Pass? <==> Valid(c)
    ensures c.processFps <= 0.0 ==> r == Fail(NonPositiveProcessFps)
    ensures c.skipFrames < 0 ==> r.Fail?
    ensures c.inferenceBatchSize < 1 || c.processWidth < 100 ==> r.Fail?
    ensures !(0.0 < c.energySmoothingFactor <= 1.0) ==> r.Fail?
    ensures c.minDynamicThreshold > c.maxDynamicThreshold ==> r.Fail?
    // The error reported names the first violated check: it failed and every
    // earlier check passed.
    ensures r == Fail(NonPositiveProcessFps) ==> c.processFps <= 0.0
    ensures r == Fail(NegativeSkipFrames) ==> c.processFps > 0.0 && c.skipFrames < 0
    ensures r == Fail(BatchSizeBelowOne) ==> c.processFps > 0.0 && c.skipFrames >= 0 && c.inferenceBatchSize < 1
    ensures r == Fail(ProcessWidthBelow100) ==>
      c.processFps > 0.0 && c.skipFrames >= 0 && c.inferenceBatchSize >= 1 && c.processWidth < 100
    ensures r == Fail(SmoothingFactorOutOfRange) ==>
      c.processFps > 0.0 && c.skipFrames >= 0 && c.inferenceBatchSize >= 1 && c.processWidth >= 100
      && !(0.0 < c.energySmoothingFactor <= 1.0)
    ensures r == Fail(ThresholdBoundsInverted) ==>
      c.processFps > 0.0 && c.skipFrames >= 0 && c.inferenceBatchSize >= 1 && c.processWidth >= 100
      && 0.0 < c.energySmoothingFactor <= 1.0 && c.minDynamicThreshold > c.maxDynamicThreshold
  {
    if c.processFps <= 0.0 then Fail(NonPositiveProcessFps)
    else if c.skipFrames < 0 then Fail(NegativeSkipFrames)
    else if c.inferenceBatchSize < 1 then Fail(BatchSizeBelowOne)
    else if c.processWidth < 100 then Fail(ProcessWidthBelow100)
    else if !(0.0 < c.energySmoothingFactor <= 1.0) then Fail(SmoothingFactorOutOfRange)
    else if c.minDynamicThreshold > c.maxDynamicThreshold then Fail(ThresholdBoundsInverted)
    else Pass
  }

  /** The dataclass defaults (`DEFAULT_CONFIG`). */
  function Default(): (c: Config)
    ensures Valid(c)
  {
    Config(
      processFps := 30.0,
      processWidth := 640,
      skipFrames := 2,
      inferenceBatchSize := 4,
      preServeBuffer := 4.0,
      postPointBuffer := -1.0,
      minOccupiedZones := 2,
      minHoldDuration := 2.5,
      minPointDuration := 2.5,
      minLowEnergyDuration := 2.5,
      baseSensitivity := 15.0,
      minDynamicThreshold := 60.0,
      maxDynamicThreshold := 60.0,
      rallyEnergyReq := 80.0,
      walkEnergyCap := 55.0,
      energySmoothingFactor := 0.3,
      keypointConfidenceThreshold := 0.5,
      maxSkeletonMatchDistance := 100.0)
  }

  /** Building `DEFAULT_CONFIG` at import time does not raise. */
  lemma DefaultIsValid()
    ensures PostInit(Default()) == Pass
  {
  }

  /** Only six fields are checked: two configurations that agree on them are
      accepted or rejected alike, whatever their buffers, zone minimum or
      classification cut-offs (so, e.g., `walk_energy_cap > rally_energy_req`
      is accepted). */
  lemma OnlyCheckedFieldsMatter(c: Config, d: Config)
    requires c.processFps == d.processFps && c.skipFrames == d.skipFrames
    requires c.inferenceBatchSize == d.inferenceBatchSize && c.processWidth == d.processWidth
    requires c.energySmoothingFactor == d.energySmoothingFactor
    requires c.minDynamicThreshold == d.minDynamicThreshold
    requires c.maxDynamicThreshold == d.maxDynamicThreshold
    ensures PostInit(c) == PostInit(d)
  {
  }
}
