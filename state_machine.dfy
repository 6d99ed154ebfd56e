/** The event state machine of python/core/state_machine.py: one call of
    `update` per processed frame moves SEARCHING -> LOCKED -> PROBATION ->
    RALLY (with PROBATION/RALLY closing back to SEARCHING and the RALLY ->
    LOCKED force cut), and closes clips classified by their peak energy.

    The mutable `StateMachineContext` is a class; `StateMachine.Update` is
    proved equal to the pure function `Step` on a snapshot of the context,
    and the source's promises are lemmas about `Step`. */
module Detector {
  import opened Wrappers
  import opened Numeric
  import opened Configuration
  import Threshold

  datatype GameState = Searching | Locked | Probation | Rally

  datatype ClipInfo = ClipInfo(start: real, end: real, tag: string, confidence: string, peakEnergy: int)

  /** The JSON record `to_dict` produces (rounding to milliseconds is not
      modelled). */
  datatype ClipRecord = ClipRecord(start: real, end: real, duration: real, tag: string, confidence: string, peakEnergy: int)

  function ToDict(c: ClipInfo): (d: ClipRecord)
    ensures d.duration == d.end - d.start
    ensures d.start == c.start && d.end == c.end && d.tag == c.tag && d.confidence == c.confidence
    ensures d.peakEnergy == c.peakEnergy
  {
    ClipRecord(c.start, c.end, c.end - c.start, c.tag, c.confidence, c.peakEnergy)
  }

  /** `ClipClassifier.classify`, the traffic-light tagging. The duration is
      accepted and ignored. */
  function Classify(cfg: Config, duration: real, peakEnergy: real): (r: (string, string))
    ensures r == ("Rally", "High") <==> peakEnergy > cfg.rallyEnergyReq
    ensures r == ("Noise", "Low") <==> peakEnergy <= cfg.rallyEnergyReq && peakEnergy < cfg.walkEnergyCap
    ensures r == ("Serve", "Medium") <==> cfg.walkEnergyCap <= peakEnergy <= cfg.rallyEnergyReq
  {
    if peakEnergy > cfg.rallyEnergyReq then ("Rally", "High")
    else if peakEnergy < cfg.walkEnergyCap then ("Noise", "Low")
    else ("Serve", "Medium")
  }

  lemma ClassifyIgnoresDuration(cfg: Config, d1: real, d2: real, peakEnergy: real)
    ensures Classify(cfg, d1, peakEnergy) == Classify(cfg, d2, peakEnergy)
  {
  }

  /** The value of a `StateMachineContext`. */
  datatype Snapshot = Snapshot(
    state: GameState,
    framesHeld: int,
    lowEnergyFrames: int,
    serveTime: real,
    clipPeakEnergy: real,
    baselineReadings: seq<real>,
    dynamicThreshold: real)

  /** A freshly constructed context. */
  const INITIAL_CONTEXT := Snapshot(Searching, 0, 0, 0.0, 0.0, [], 40.0)

  /** The frame counts precomputed by the constructor as `int(seconds * fps)`:
      the hold before arming, the one-second force-cut hold, and the
      low-energy duration that ends a point. */
  datatype FrameThresholds = FrameThresholds(startNeeded: int, overrideNeeded: int, endNeeded: int)

  /** The arguments of one `update` call. */
  datatype Frame = Frame(timestamp: real, activeZones: int, smoothEnergy: real, numSkeletons: int, logicStep: int)

  datatype StepResult = StepResult(ctx: Snapshot, clip: Option<ClipInfo>)

  /** `_save_clip`: the pre-serve buffer is applied to the serve time (never
      before 0), the clip is classified by its peak energy, and the peak is
      truncated to an integer. */
  function SaveClip(cfg: Config, c: Snapshot, endTime: real): (clip: ClipInfo)
    ensures clip.start >= 0.0 && clip.start >= c.serveTime - cfg.preServeBuffer
    ensures clip.start == 0.0 || clip.start == c.serveTime - cfg.preServeBuffer
    ensures clip.end == endTime
    ensures (clip.tag, clip.confidence) == Classify(cfg, clip.end - clip.start, c.clipPeakEnergy)
    ensures c.clipPeakEnergy >= 0.0 ==> clip.peakEnergy == c.clipPeakEnergy.Floor
  {
    var start := Max(0.0, c.serveTime - cfg.preServeBuffer);
    var (tag, confidence) := Classify(cfg, endTime - start, c.clipPeakEnergy);
    ClipInfo(start, endTime, tag, confidence, Trunc(c.clipPeakEnergy))
  }

  /** Peak tracking, run first on every call: while a clip is open the peak
      becomes the larger of itself and the energy; nothing else changes. */
  function TrackPeak(c: Snapshot, energy: real): (r: Snapshot)
    ensures r == c.(clipPeakEnergy := r.clipPeakEnergy)
    ensures c.state == Probation || c.state == Rally ==>
      && r.clipPeakEnergy >= c.clipPeakEnergy && r.clipPeakEnergy >= energy
      && (r.clipPeakEnergy == c.clipPeakEnergy || r.clipPeakEnergy == energy)
    ensures c.state != Probation && c.state != Rally ==> r == c
  {
    if c.state == Probation || c.state == Rally then c.(clipPeakEnergy := Max(c.clipPeakEnergy, energy)) else c
  }

  /** The arrows of the state diagram: SEARCHING -> LOCKED -> PROBATION ->
      RALLY, PROBATION and RALLY back to SEARCHING, and the RALLY -> LOCKED
      force cut (or staying put). */
  predicate Edge(from: GameState, to: GameState)
  {
    || from == to
    || (from == Searching && to == Locked)
    || (from == Locked && to == Probation)
    || (from == Probation && (to == Rally || to == Searching))
    || (from == Rally && (to == Searching || to == Locked))
  }

  /** The global override, checked only in RALLY: it fires exactly when the
      zones are occupied and the held frames reach `frames_override_needed`,
      closing the clip one second back and moving to LOCKED. */
  function ForceCut(cfg: Config, thr: FrameThresholds, c: Snapshot, f: Frame): (r: StepResult)
    ensures r.clip.Some? <==>
      c.state == Rally && f.activeZones >= cfg.minOccupiedZones && c.framesHeld + f.logicStep >= thr.overrideNeeded
    ensures r.clip.Some? ==> r.ctx.state == Locked && r.clip.value == SaveClip(cfg, c, f.timestamp - 1.0)
    ensures r.clip.None? ==> r.ctx.state == c.state
  {
    if c.state != Rally then StepResult(c, None)
    else if f.activeZones >= cfg.minOccupiedZones then
      var held := c.framesHeld + f.logicStep;
      if held >= thr.overrideNeeded then
        StepResult(c.(state := Locked, framesHeld := thr.startNeeded, baselineReadings := []),
                   Some(SaveClip(cfg, c, f.timestamp - 1.0)))
      else StepResult(c.(framesHeld := held), None)
    else StepResult(c.(framesHeld := 0), None)
  }

  /** The `if`/`elif` chain over the state after the override: it follows an
      arrow of the diagram (never the force cut), and a clip it closes comes
      from PROBATION or RALLY, returns to SEARCHING and ends
      `post_point_buffer` after the frame. */
  function Transition(cfg: Config, thr: FrameThresholds, c: Snapshot, f: Frame): (r: StepResult)
    ensures Edge(c.state, r.ctx.state) && (c.state == Rally ==> r.ctx.state != Locked)
    ensures r.clip.Some? ==>
      && (c.state == Probation || c.state == Rally) && r.ctx.state == Searching
      && r.clip.value.end == f.timestamp + cfg.postPointBuffer
  {
    match c.state
    case Searching =>
      if f.activeZones >= cfg.minOccupiedZones then
        var held := c.framesHeld + f.logicStep;
        StepResult(c.(state := if held >= thr.startNeeded then Locked else Searching,
                      framesHeld := held,
                      baselineReadings := c.baselineReadings + [f.smoothEnergy]), None)
      else StepResult(c.(framesHeld := 0, baselineReadings := []), None)
    case Locked =>
      var readings := c.baselineReadings + [f.smoothEnergy];
      if f.activeZones < cfg.minOccupiedZones then
        var threshold := Threshold.DynamicThreshold(readings, cfg.baseSensitivity,
                                                    cfg.minDynamicThreshold, cfg.maxDynamicThreshold);
        StepResult(c.(baselineReadings := readings, dynamicThreshold := threshold, serveTime := f.timestamp,
                      state := Probation, framesHeld := 0, clipPeakEnergy := 0.0), None)
      else StepResult(c.(baselineReadings := readings), None)
    case Probation =>
      var low := if f.smoothEnergy < c.dynamicThreshold then c.lowEnergyFrames + f.logicStep else 0;
      var counted := c.(lowEnergyFrames := low);
      if f.timestamp - c.serveTime >= cfg.minPointDuration then
        if f.smoothEnergy > c.dynamicThreshold then
          StepResult(counted.(state := Rally, lowEnergyFrames := 0), None)
        else if low >= thr.endNeeded then
          StepResult(counted.(state := Searching, framesHeld := 0, baselineReadings := []),
                     Some(SaveClip(cfg, counted, f.timestamp + cfg.postPointBuffer)))
        else StepResult(counted, None)
      else StepResult(counted, None)
    case Rally =>
      var low := if f.numSkeletons < 1 then 0
                 else if f.smoothEnergy < c.dynamicThreshold then c.lowEnergyFrames + f.logicStep
                 else 0;
      var counted := c.(lowEnergyFrames := low);
      if low >= thr.endNeeded then
        StepResult(counted.(state := Searching, framesHeld := 0, baselineReadings := []),
                   Some(SaveClip(cfg, counted, f.timestamp + cfg.postPointBuffer)))
      else StepResult(counted, None)
  }

  /** One `update` call on a context value: the new context and the clip it
      completes, if any. */
  function Step(cfg: Config, thr: FrameThresholds, c: Snapshot, f: Frame): (r: StepResult)
    ensures Edge(c.state, r.ctx.state)
    ensures r.clip.Some? ==> c.state == Probation || c.state == Rally
  {
    var tracked := TrackPeak(c, f.smoothEnergy);
    var cut := ForceCut(cfg, thr, tracked, f);
    var next := Transition(cfg, thr, cut.ctx, f);
    StepResult(next.ctx, if next.clip.Some? then next.clip else cut.clip)
  }

  /** What every reachable context satisfies. */
  predicate Inv(cfg: Config, c: Snapshot)
  {
    && c.clipPeakEnergy >= 0.0
    && (c.state == Probation || c.state == Rally ==>
          cfg.minDynamicThreshold <= c.dynamicThreshold <= cfg.maxDynamicThreshold)
    && (c.state == Locked ==> c.baselineReadings != [])
    && (c.state == Probation ==> c.framesHeld == 0)
  }

  lemma InitialContextInv(cfg: Config)
    ensures Inv(cfg, INITIAL_CONTEXT)
  {
  }

  lemma StepPreservesInv(cfg: Config, thr: FrameThresholds, c: Snapshot, f: Frame)
    requires Valid(cfg) && Inv(cfg, c)
    ensures Inv(cfg, Step(cfg, thr, c, f).ctx)
  {
  }

  /** A clip is closed only from PROBATION or RALLY, starts at the serve
      time less the pre-serve buffer (never before 0), carries the truncated
      running peak, and leaves the machine in SEARCHING (a low-energy end,
      `post_point_buffer` after the frame) or LOCKED (a force cut, one second
      before it). */
  lemma StepClipShape(cfg: Config, thr: FrameThresholds, c: Snapshot, f: Frame)
    requires Step(cfg, thr, c, f).clip.Some?
    ensures c.state == Probation || c.state == Rally
    ensures var r := Step(cfg, thr, c, f);
      && r.clip.value.start == Max(0.0, c.serveTime - cfg.preServeBuffer)
      && r.clip.value.start >= 0.0
      && r.clip.value.peakEnergy == Trunc(Max(c.clipPeakEnergy, f.smoothEnergy))
      && (r.ctx.state == Searching || r.ctx.state == Locked)
      && (r.ctx.state == Searching ==> r.clip.value.end == f.timestamp + cfg.postPointBuffer)
      && (r.ctx.state == Locked ==> r.clip.value.end == f.timestamp - 1.0)
  {
  }

  /** SEARCHING: counting held frames and collecting the baseline while the
      zones are occupied, starting over otherwise. */
  lemma SearchingStep(cfg: Config, thr: FrameThresholds, c: Snapshot, f: Frame)
    requires c.state == Searching
    ensures var r := Step(cfg, thr, c, f);
      && r.clip == None
      && r.ctx.lowEnergyFrames == c.lowEnergyFrames && r.ctx.dynamicThreshold == c.dynamicThreshold
      && (f.activeZones < cfg.minOccupiedZones ==>
            r.ctx.state == Searching && r.ctx.framesHeld == 0 && r.ctx.baselineReadings == [])
      && (f.activeZones >= cfg.minOccupiedZones ==>
            && r.ctx.framesHeld == c.framesHeld + f.logicStep
            && r.ctx.baselineReadings == c.baselineReadings + [f.smoothEnergy]
            && (r.ctx.state == Locked <==> c.framesHeld + f.logicStep >= thr.startNeeded)
            && (r.ctx.state == Searching <==> c.framesHeld + f.logicStep < thr.startNeeded))
  {
  }

  /** LOCKED: the reading is always added to the baseline; the serve is
      detected when the players leave their zones, which calibrates the
      threshold from the whole baseline and opens PROBATION. */
  lemma LockedStep(cfg: Config, thr: FrameThresholds, c: Snapshot, f: Frame)
    requires c.state == Locked
    ensures var r := Step(cfg, thr, c, f);
      && r.clip == None
      && r.ctx.baselineReadings == c.baselineReadings + [f.smoothEnergy]
      && r.ctx.lowEnergyFrames == c.lowEnergyFrames
      && (f.activeZones >= cfg.minOccupiedZones ==> r.ctx == c.(baselineReadings := r.ctx.baselineReadings))
      && (f.activeZones < cfg.minOccupiedZones ==>
            && r.ctx.state == Probation
            && r.ctx.dynamicThreshold == Threshold.DynamicThreshold(c.baselineReadings + [f.smoothEnergy],
                 cfg.baseSensitivity, cfg.minDynamicThreshold, cfg.maxDynamicThreshold)
            && r.ctx.serveTime == f.timestamp
            && r.ctx.framesHeld == 0
            && r.ctx.clipPeakEnergy == 0.0)
  {
  }

  /** The baseline a serve calibrates from is never empty, so the 10.0 noise
      floor of `calculate_dynamic_threshold` is not reached from the machine. */
  lemma ServeCalibratesFromReadings(cfg: Config, thr: FrameThresholds, c: Snapshot, f: Frame)
    requires c.state == Locked && f.activeZones < cfg.minOccupiedZones
    ensures var r := Step(cfg, thr, c, f);
      && r.ctx.baselineReadings != []
      && r.ctx.dynamicThreshold == Threshold.Clamp(
           Threshold.NoiseFloor(r.ctx.baselineReadings) + cfg.baseSensitivity,
           cfg.minDynamicThreshold, cfg.maxDynamicThreshold)
  {
  }

  /** PROBATION before `min_point_duration` has passed: neither promotion nor
      cut; only the low-energy counter and the running peak move. */
  lemma ProbationHoldsUntilMinDuration(cfg: Config, thr: FrameThresholds, c: Snapshot, f: Frame)
    requires c.state == Probation && f.timestamp - c.serveTime < cfg.minPointDuration
    ensures var r := Step(cfg, thr, c, f);
      && r.clip == None && r.ctx.state == Probation
      && r.ctx.lowEnergyFrames ==
           (if f.smoothEnergy < c.dynamicThreshold then c.lowEnergyFrames + f.logicStep else 0)
      && r.ctx == c.(lowEnergyFrames := r.ctx.lowEnergyFrames,
                     clipPeakEnergy := Max(c.clipPeakEnergy, f.smoothEnergy))
  {
  }

  /** PROBATION after `min_point_duration`: high energy promotes to RALLY,
      sustained low energy closes a short clip, and energy exactly at the
      threshold only zeroes the counter. */
  lemma ProbationAfterMinDuration(cfg: Config, thr: FrameThresholds, c: Snapshot, f: Frame)
    requires c.state == Probation && f.timestamp - c.serveTime >= cfg.minPointDuration
    ensures var r := Step(cfg, thr, c, f);
      && (f.smoothEnergy > c.dynamicThreshold ==>
            r.ctx.state == Rally && r.ctx.lowEnergyFrames == 0 && r.clip == None)
      && (f.smoothEnergy == c.dynamicThreshold ==>
            r.ctx.state != Rally && r.ctx.lowEnergyFrames == 0 && (r.clip == None <==> thr.endNeeded > 0))
      && (f.smoothEnergy < c.dynamicThreshold ==>
            (r.clip.Some? <==> c.lowEnergyFrames + f.logicStep >= thr.endNeeded))
      && (r.clip.Some? ==>
            && r.ctx.state == Searching && r.ctx.framesHeld == 0 && r.ctx.baselineReadings == []
            && r.clip.value.end == f.timestamp + cfg.postPointBuffer)
  {
  }

  /** RALLY occlusion shield: a frame without skeletons zeroes the low-energy
      counter, so it cannot end the rally unless `frames_end_needed` is not
      positive; only a force cut can close a clip on it. */
  lemma OcclusionShield(cfg: Config, thr: FrameThresholds, c: Snapshot, f: Frame)
    requires c.state == Rally && f.numSkeletons < 1 && thr.endNeeded > 0
    ensures var r := Step(cfg, thr, c, f);
      && r.ctx.state != Searching
      && (r.ctx.state == Rally ==> r.ctx.lowEnergyFrames == 0 && r.clip == None)
      && (r.clip.Some? ==> r.ctx.state == Locked && r.clip.value.end == f.timestamp - 1.0)
  {
  }

  /** RALLY with skeletons in view and no force cut: the counter grows below
      the threshold, resets at or above it, and reaching `frames_end_needed`
      ends the rally. */
  lemma RallyLowEnergyEnd(cfg: Config, thr: FrameThresholds, c: Snapshot, f: Frame)
    requires c.state == Rally && f.numSkeletons >= 1
    requires f.activeZones < cfg.minOccupiedZones || c.framesHeld + f.logicStep < thr.overrideNeeded
    ensures var r := Step(cfg, thr, c, f);
      var low := if f.smoothEnergy < c.dynamicThreshold then c.lowEnergyFrames + f.logicStep else 0;
      && r.ctx.lowEnergyFrames == low
      && (r.clip.Some? <==> low >= thr.endNeeded)
      && (r.clip.Some? ==> r.ctx.state == Searching && r.clip.value.end == f.timestamp + cfg.postPointBuffer)
      && (r.clip.None? ==> r.ctx.state == Rally)
  {
  }

  /** Force cut: occupied zones in RALLY accumulate held frames (and an
      unoccupied frame zeroes them); reaching `frames_override_needed` closes
      the clip one second back and leaves the machine LOCKED, the LOCKED
      branch having already taken this frame's energy as the first reading. */
  lemma ForceCutStep(cfg: Config, thr: FrameThresholds, c: Snapshot, f: Frame)
    requires c.state == Rally
    ensures var r := Step(cfg, thr, c, f);
      && (f.activeZones < cfg.minOccupiedZones ==> r.ctx.framesHeld == 0 && r.ctx.state != Locked)
      && (f.activeZones >= cfg.minOccupiedZones && c.framesHeld + f.logicStep >= thr.overrideNeeded ==>
            && r.ctx.state == Locked
            && r.ctx.framesHeld == thr.startNeeded
            && r.ctx.baselineReadings == [f.smoothEnergy]
            && r.clip.Some? && r.clip.value.end == f.timestamp - 1.0)
      && (f.activeZones >= cfg.minOccupiedZones && c.framesHeld + f.logicStep < thr.overrideNeeded ==>
            r.ctx.state != Locked && (r.ctx.state == Rally ==> r.ctx.framesHeld == c.framesHeld + f.logicStep))
  {
  }

  /** The clip peak is the running maximum while a clip is open. */
  lemma PeakIsRunningMax(cfg: Config, thr: FrameThresholds, c: Snapshot, f: Frame)
    requires c.state == Probation || c.state == Rally
    ensures var r := Step(cfg, thr, c, f);
      (r.ctx.state == Probation || r.ctx.state == Rally) ==>
        && r.ctx.clipPeakEnergy == Max(c.clipPeakEnergy, f.smoothEnergy)
        && r.ctx.clipPeakEnergy >= c.clipPeakEnergy && r.ctx.clipPeakEnergy >= f.smoothEnergy
  {
  }

  /** The context after a sequence of `update` calls, and the clips they
      closed, in order. */
  function Run(cfg: Config, thr: FrameThresholds, c: Snapshot, frames: seq<Frame>): (r: (Snapshot, seq<ClipInfo>))
    ensures |r.1| <= |frames|
  {
    if frames == [] then (c, [])
    else
      var (mid, clips) := Run(cfg, thr, c, frames[..|frames| - 1]);
      var s := Step(cfg, thr, mid, frames[|frames| - 1]);
      (s.ctx, clips + (if s.clip.Some? then [s.clip.value] else []))
  }

  /** Any number of frames keeps the invariant. */
  lemma {:induction false} RunPreservesInv(cfg: Config, thr: FrameThresholds, c: Snapshot, frames: seq<Frame>)
    requires Valid(cfg) && Inv(cfg, c)
    ensures Inv(cfg, Run(cfg, thr, c, frames).0)
    decreases |frames|
  {
    if frames != [] {
      RunPreservesInv(cfg, thr, c, frames[..|frames| - 1]);
      StepPreservesInv(cfg, thr, Run(cfg, thr, c, frames[..|frames| - 1]).0, frames[|frames| - 1]);
    }
  }

  /** Frames in which the serve zones are occupied, each advancing the given
      number of frames. */
  predicate OccupiedFrames(cfg: Config, frames: seq<Frame>, step: int)
  {
    forall i :: 0 <= i < |frames| ==>
      frames[i].activeZones >= cfg.minOccupiedZones && frames[i].logicStep == step
  }

  /** From a fresh SEARCHING context, k occupied frames of step s >= 1 arm
      the machine exactly when k * s reaches `frames_start_needed`; until then
      it keeps counting in SEARCHING. */
  lemma {:induction false} HoldArmsAfterEnoughFrames(cfg: Config, thr: FrameThresholds, c: Snapshot, frames: seq<Frame>, step: int)
    requires c.state == Searching && c.framesHeld == 0
    requires step >= 1 && OccupiedFrames(cfg, frames, step)
    ensures var r := Run(cfg, thr, c, frames);
      && r.1 == []
      && |r.0.baselineReadings| == |c.baselineReadings| + |frames|
      && (|frames| >= 1 ==> (r.0.state == Locked <==> |frames| * step >= thr.startNeeded))
      && (r.0.state == Searching ==> r.0.framesHeld == |frames| * step)
      && (r.0.state == Searching || r.0.state == Locked)
    decreases |frames|
  {
    if frames != [] {
      var init := frames[..|frames| - 1];
      assert OccupiedFrames(cfg, init, step) by {
        forall i | 0 <= i < |init| ensures init[i] == frames[i] { }
      }
      HoldArmsAfterEnoughFrames(cfg, thr, c, init, step);
      var mid := Run(cfg, thr, c, init).0;
      var f := frames[|frames| - 1];
      if mid.state == Searching {
        SearchingStep(cfg, thr, mid, f);
      } else {
        LockedStep(cfg, thr, mid, f);
        assert (|frames| - 1) * step >= thr.startNeeded;
      }
    }
  }

  /** Timing facts of a context, given the timestamp of the last frame: an
      open clip was served at or after 0 and not after that frame, and a
      rally was promoted at least `min_point_duration` after its serve. */
  predicate TimeInv(cfg: Config, c: Snapshot, last: real)
  {
    && (c.state == Probation || c.state == Rally ==> 0.0 <= c.serveTime <= last)
    && (c.state == Rally ==> last - c.serveTime >= cfg.minPointDuration)
  }

  /** Buffers under which every clip ends after it starts. `__post_init__`
      does not check them. */
  predicate OrderedBuffers(cfg: Config)
  {
    && cfg.preServeBuffer >= 0.0
    && cfg.minPointDuration > 1.0
    && cfg.minPointDuration + cfg.postPointBuffer > 0.0
  }

  lemma DefaultBuffersAreOrdered()
    ensures OrderedBuffers(Default())
  {
  }

  /** One frame no earlier than the last keeps the timing facts, and a clip
      it closes ends after it starts. */
  lemma StepClipEndsAfterStart(cfg: Config, thr: FrameThresholds, c: Snapshot, last: real, f: Frame)
    requires OrderedBuffers(cfg) && TimeInv(cfg, c, last) && 0.0 <= last <= f.timestamp
    ensures TimeInv(cfg, Step(cfg, thr, c, f).ctx, f.timestamp)
    ensures var r := Step(cfg, thr, c, f);
      r.clip.Some? ==> r.clip.value.start < r.clip.value.end
  {
  }

  /** Frames in time order, none before `start`, which is not negative. */
  predicate Chronological(start: real, frames: seq<Frame>)
  {
    && 0.0 <= start
    && (forall i :: 0 <= i < |frames| ==> start <= frames[i].timestamp)
    && (forall i, j :: 0 <= i <= j < |frames| ==> frames[i].timestamp <= frames[j].timestamp)
  }

  /** The timestamp of the last frame, or `start` if there is none. */
  function LastTime(start: real, frames: seq<Frame>): real
  {
    if frames == [] then start else frames[|frames| - 1].timestamp
  }

  /** Over any sequence of frames in time order, every clip closed ends after
      it starts, provided the buffers are ordered. */
  lemma {:induction false} RunClipsEndAfterStart(cfg: Config, thr: FrameThresholds, c: Snapshot, start: real, frames: seq<Frame>)
    requires OrderedBuffers(cfg) && TimeInv(cfg, c, start) && Chronological(start, frames)
    ensures TimeInv(cfg, Run(cfg, thr, c, frames).0, LastTime(start, frames))
    ensures forall k :: 0 <= k < |Run(cfg, thr, c, frames).1| ==>
      Run(cfg, thr, c, frames).1[k].start < Run(cfg, thr, c, frames).1[k].end
    decreases |frames|
  {
    if frames != [] {
      var init := frames[..|frames| - 1];
      var f := frames[|frames| - 1];
      assert Chronological(start, init) by {
        forall i | 0 <= i < |init| ensures init[i] == frames[i] { }
      }
      RunClipsEndAfterStart(cfg, thr, c, start, init);
      var (mid, clips) := Run(cfg, thr, c, init);
      assert LastTime(start, init) <= f.timestamp by {
        if init != [] {
          assert init[|init| - 1] == frames[|frames| - 2];
        }
      }
      StepClipEndsAfterStart(cfg, thr, mid, LastTime(start, init), f);
    }
  }

  /** Without ordered buffers a clip can end before it starts, under a
      configuration `__post_init__` accepts: a post-point buffer of -10 s, a
      serve at 10 s and a low-energy end at 12.5 s give the clip [6.0, 2.5]. */
  lemma InvertedClipUnderValidConfig()
    ensures var cfg := Default().(postPointBuffer := -10.0);
      var c := Snapshot(Probation, 0, 0, 10.0, 0.0, [], 60.0);
      var r := Step(cfg, FrameThresholds(75, 30, 1), c, Frame(12.5, 0, 0.0, 1, 1));
      && PostInit(cfg) == Pass && Inv(cfg, c)
      && r.clip.Some? && r.clip.value.start == 6.0 && r.clip.value.end == 2.5
  {
  }

  /** `get_state_name`: the name reported for each state. */
  function StateName(s: GameState): (name: string)
  {
    match s
    case Searching => "SEARCHING"
    case Locked => "LOCKED"
    case Probation => "PROBATION"
    case Rally => "RALLY"
  }

  lemma StateNameInjective(s: GameState, t: GameState)
    ensures StateName(s) == StateName(t) <==> s == t
  {
  }

  class StateMachineContext {
    var state: GameState
    var framesHeld: int
    var lowEnergyFrames: int
    var serveTime: real
    var clipPeakEnergy: real
    var baselineReadings: seq<real>
    var dynamicThreshold: real

    constructor ()
      ensures View() == INITIAL_CONTEXT
    {
      state := Searching;
      framesHeld := 0;
      lowEnergyFrames := 0;
      serveTime := 0.0;
      clipPeakEnergy := 0.0;
      baselineReadings := [];
      dynamicThreshold := 40.0;
    }

    function View(): Snapshot
      reads this
    {
      Snapshot(state, framesHeld, lowEnergyFrames, serveTime, clipPeakEnergy, baselineReadings, dynamicThreshold)
    }

    /** The peak tracking at the top of `update`. */
    method UpdatePeak(smoothEnergy: real)
      modifies this
      ensures View() == TrackPeak(old(View()), smoothEnergy)
    {
      if state == Probation || state == Rally {
        clipPeakEnergy := Max(clipPeakEnergy, smoothEnergy);
      }
    }

    /** The RALLY force cut of `update`. */
    method ApplyForceCut(cfg: Config, thr: FrameThresholds, f: Frame) returns (clip: Option<ClipInfo>)
      modifies this
      ensures StepResult(View(), clip) == ForceCut(cfg, thr, old(View()), f)
    {
      clip := None;
      if state == Rally {
        if f.activeZones >= cfg.minOccupiedZones {
          framesHeld := framesHeld + f.logicStep;
          if framesHeld >= thr.overrideNeeded {
            clip := Some(SaveClip(cfg, View(), f.timestamp - 1.0));
            state := Locked;
            framesHeld := thr.startNeeded;
            baselineReadings := [];
          }
        } else {
          framesHeld := 0;
        }
      }
    }

    /** The state dispatch of `update`. */
    method ApplyTransition(cfg: Config, thr: FrameThresholds, f: Frame) returns (clip: Option<ClipInfo>)
      modifies this
      ensures StepResult(View(), clip) == Transition(cfg, thr, old(View()), f)
    {
      clip := None;
      if state == Searching {
        if f.activeZones >= cfg.minOccupiedZones {
          framesHeld := framesHeld + f.logicStep;
          baselineReadings := baselineReadings + [f.smoothEnergy];
          if framesHeld >= thr.startNeeded {
            state := Locked;
          }
        } else {
          framesHeld := 0;
          baselineReadings := [];
        }
      } else if state == Locked {
        baselineReadings := baselineReadings + [f.smoothEnergy];
        if f.activeZones < cfg.minOccupiedZones {
          dynamicThreshold := Threshold.DynamicThreshold(baselineReadings, cfg.baseSensitivity,
                                                         cfg.minDynamicThreshold, cfg.maxDynamicThreshold);
          serveTime := f.timestamp;
          state := Probation;
          framesHeld := 0;
          clipPeakEnergy := 0.0;
        }
      } else if state == Probation {
        var currentDuration := f.timestamp - serveTime;
        if f.smoothEnergy < dynamicThreshold {
          lowEnergyFrames := lowEnergyFrames + f.logicStep;
        } else {
          lowEnergyFrames := 0;
        }
        if currentDuration >= cfg.minPointDuration {
          if f.smoothEnergy > dynamicThreshold {
            state := Rally;
            lowEnergyFrames := 0;
          } else if lowEnergyFrames >= thr.endNeeded {
            clip := Some(SaveClip(cfg, View(), f.timestamp + cfg.postPointBuffer));
            state := Searching;
            framesHeld := 0;
            baselineReadings := [];
          }
        }
      } else {
        if f.numSkeletons < 1 {
          lowEnergyFrames := 0;
        } else if f.smoothEnergy < dynamicThreshold {
          lowEnergyFrames := lowEnergyFrames + f.logicStep;
        } else {
          lowEnergyFrames := 0;
        }
        if lowEnergyFrames >= thr.endNeeded {
          clip := Some(SaveClip(cfg, View(), f.timestamp + cfg.postPointBuffer));
          state := Searching;
          framesHeld := 0;
          baselineReadings := [];
        }
      }
    }
  }

  class StateMachine {
    const config: Config
    const thresholds: FrameThresholds
    var ctx: StateMachineContext
    var clips: seq<ClipInfo>

    ghost predicate Valid()
      reads this, ctx
    {
      Configuration.Valid(config) && Inv(config, ctx.View())
    }

    /** `__init__`, with the frame counts `int(min_hold_duration * fps)`,
        `int(1.0 * fps)` and `int(min_low_energy_duration * fps)` given. */
    constructor (config: Config, framesStartNeeded: int, framesOverrideNeeded: int, framesEndNeeded: int)
      requires Configuration.Valid(config)
      ensures Valid() && fresh(ctx)
      ensures this.config == config
      ensures thresholds == FrameThresholds(framesStartNeeded, framesOverrideNeeded, framesEndNeeded)
      ensures ctx.View() == INITIAL_CONTEXT && clips == []
    {
      this.config := config;
      thresholds := FrameThresholds(framesStartNeeded, framesOverrideNeeded, framesEndNeeded);
      ctx := new StateMachineContext();
      clips := [];
    }

    /** `update`: advance the context by one frame, and append the clip it
        completes, if any, to the clip list. */
    method Update(timestamp: real, activeZones: int, smoothEnergy: real, numSkeletons: int, logicStep: int)
      returns (completed: Option<ClipInfo>)
      requires Valid()
      modifies this, ctx
      ensures Valid() && ctx == old(ctx)
      ensures StepResult(ctx.View(), completed) ==
        Step(config, thresholds, old(ctx.View()), Frame(timestamp, activeZones, smoothEnergy, numSkeletons, logicStep))
      ensures clips == old(clips) + (if completed.Some? then [completed.value] else [])
    {
      ghost var before := ctx.View();
      var f := Frame(timestamp, activeZones, smoothEnergy, numSkeletons, logicStep);
      ctx.UpdatePeak(smoothEnergy);
      var cut := ctx.ApplyForceCut(config, thresholds, f);
      var closed := ctx.ApplyTransition(config, thresholds, f);
      completed := if closed.Some? then closed else cut;
      if completed.Some? {
        clips := clips + [completed.value];
      }
      StepPreservesInv(config, thresholds, before, f);
    }

    /** `get_threshold`: once a serve has been calibrated, the threshold lies
        within the configured rails. */
    function GetThreshold(): (threshold: real)
      reads this, ctx
      requires Valid()
      ensures ctx.state == Probation || ctx.state == Rally ==>
        config.minDynamicThreshold <= threshold <= config.maxDynamicThreshold
    {
      ctx.dynamicThreshold
    }

    /** `reset`: a fresh context in SEARCHING and no clips. */
    method Reset()
      requires Valid()
      modifies this
      ensures Valid() && fresh(ctx)
      ensures ctx.View() == INITIAL_CONTEXT && clips == []
    {
      ctx := new StateMachineContext();
      clips := [];
    }

    /** `get_clips`. */
    method GetClips() returns (result: seq<ClipInfo>)
      ensures result == clips
    {
      result := clips;
    }
  }
}
