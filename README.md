# cutserve detection engine — a verified Dafny model

cutserve condenses Roundnet (Spikeball) match footage into clips of the
points actually played. Each processed frame gives three signals: how many
serve zones have a player's ankle inside them, how much the players moved
since the previous frame (the "energy"), and how many skeletons the pose
model found. A four-state machine (SEARCHING → LOCKED → PROBATION → RALLY)
consumes these signals and cuts clips, which it tags by their peak energy
(the "traffic light" Rally / Serve / Noise classification). This project
models that engine and proves what it promises:

- `config.dfy` (module `Configuration`): the configuration fields the engine
  reads, the validity checks run on construction, and the defaults.
- `zones.dfy` (module `ZoneOccupancy`): `ZoneManager` as a class. It covers
  scaling the integer zone polygons to the processing width (truncating
  toward zero) and the zone-occupancy test, written as nested loops over an
  array.
- `energy.dfy` (module `EnergyEstimator`): `EnergyCalculator` as a class.
  It covers greedy nearest-neighbour matching of hip centres between two
  frames, normalising by the scale factor, and exponential smoothing.
- `threshold.dfy` (module `Threshold`): `clamp` and the calibrated
  ("safety rails") dynamic threshold.
- `state_machine.dfy` (module `Detector`): the clip classifier, the clip
  record, and the state machine. `StateMachine` and its
  `StateMachineContext` are classes. `StateMachine.Update` is proved to
  compute exactly the pure function `Step` on a snapshot of the context, and
  every promise of the machine is a lemma about `Step` or its fold `Run`.
- `renderer.dfy` (module `Renderer`): the FFmpeg `drawtext` escaping,
  proved to be a per-character map, and the keep/trash filter applied when
  the reviewed clips are loaded.
- `numeric.dfy` and `wrappers.dfy`: Python's two-argument `max`/`min`,
  truncation toward zero (`int(x)`, `astype(np.int32)`), and `Option`.

External calls are parameters of the operations that make them.
`cv2.pointPolygonTest` is a function `(Point, Zone) -> real`, read exactly as
the source reads it (≥ 0 means inside or on the boundary).
`np.linalg.norm` of a difference is a function `(Point, Point) -> real`;
only its non-negativity is assumed, and only where a bound needs it.
Timestamps, energies and distances are `real`.

Two behaviours a reader might expect are absent: scaled zone coordinates are
truncated toward zero (`astype(np.int32)`), not rounded, and zones are never
checked for having at least three vertices. The model also makes these
behaviours of the code visible as lemmas:
- `low_energy_frames` is not reset on entering PROBATION (`LockedStep`).
- After a force cut, the LOCKED branch runs in the same call, so the new
  baseline already holds that frame's energy (`ForceCutStep`).
- The machine always calibrates from a non-empty baseline, so the 10.0
  fallback noise floor is unreachable from it (`ServeCalibratesFromReadings`).
- The configuration accepts `walk_energy_cap > rally_energy_req`
  (`OnlyCheckedFieldsMatter`).
- A clip ends after it starts only when the buffers are ordered: pre-serve
  buffer ≥ 0, minimum point duration > 1 s, and minimum point duration +
  post-point buffer > 0. The defaults meet this, and then every clip of a
  time-ordered run satisfies start < end (`RunClipsEndAfterStart`). The
  validation does not check these buffers, and an accepted configuration
  with a post-point buffer of −10 s closes the clip [6.0, 2.5]
  (`InvertedClipUnderValidConfig`).

## Model

| member | source | states |
|---|---|---|
| Configuration.PostInit | python/core/config.py:84-97 | Construction succeeds iff process_fps > 0, skip_frames ≥ 0, inference_batch_size ≥ 1, process_width ≥ 100, 0 < energy_smoothing_factor ≤ 1 and min_dynamic_threshold ≤ max_dynamic_threshold. Each violated check makes it fail, and the error reported is the first violated check in source order. |
| Configuration.Default | python/core/config.py:32-71 | The dataclass defaults of the engine's fields. They satisfy every validity check. |
| Configuration.DefaultIsValid | python/core/config.py:32-101 | The dataclass defaults pass every check, so building DEFAULT_CONFIG at import does not raise. |
| Configuration.OnlyCheckedFieldsMatter | python/core/config.py:84-97 | Two configurations that agree on the six checked fields are accepted or rejected alike. No other field (buffers, zone minimum, traffic-light cut-offs) is constrained. |
| Threshold.Clamp | python/core/utils.py:193-205 | With min ≤ max the result is in [min, max]. It equals the value when the value is inside, min below and max above. With inverted bounds the lower bound wins. |
| Threshold.NoiseFloor | python/core/utils.py:232-235 | An empty baseline yields the 10.0 fallback noise floor. |
| Threshold.NoiseFloorWithin | python/core/utils.py:232-233 | The mean of a non-empty baseline lies between any lower and upper bound of its readings. |
| Threshold.ConstantBaselineFloor | python/core/utils.py:232-233 | A baseline of identical readings has that reading as its noise floor. |
| Threshold.DynamicThreshold | python/core/utils.py:208-238 | With min ≤ max the threshold is in [min, max]. It equals noise floor + sensitivity whenever that is already inside the rails, and an empty baseline uses the 10.0 fallback. |
| Threshold.ThresholdFollowsBaseline | python/core/utils.py:232-238 | Readings bounded by [lo, hi] give a threshold between clamp(lo + sensitivity) and clamp(hi + sensitivity), so calibration is monotone in the baseline. |
| Threshold.DefaultThresholdIsSixty | python/core/config.py:54-56 | With the default rails (60, 60) every calibrated threshold is 60, whatever the baseline. |
| ZoneOccupancy.InZone | python/core/utils.py:86-98 | `_point_in_zone`: a point is in a zone iff the polygon test is ≥ 0, so the boundary counts as inside. |
| ZoneOccupancy.CountTrue | python/core/utils.py:82 | `sum(occupied)` is at most the list length. It equals the length iff every entry is true, and it is 0 iff every entry is false. |
| ZoneOccupancy.ScaleByOneIsIdentity | python/core/utils.py:57-61 | Scaling by 1.0 leaves every polygon unchanged. |
| ZoneOccupancy.ScaledCoordinateBounds | python/core/utils.py:59 | A scaled coordinate is the exact product truncated toward zero: within one pixel of it and never larger in magnitude. |
| ZoneOccupancy.ZoneManager.constructor | python/core/utils.py:30-34 | No zones, no scaled zones, scale factor 1.0. |
| ZoneOccupancy.ZoneManager.LoadZones | python/core/utils.py:36-47 | The polygons read become the zones, with no validation. |
| ZoneOccupancy.ZoneManager.ScaleZones | python/core/utils.py:49-61 | scale_factor = target/original. The scaled copy has one polygon per zone with the same vertex count, and every vertex is the original vertex multiplied and truncated toward zero. |
| ZoneOccupancy.ZoneManager.ZonesToCheck | python/core/utils.py:73 | The polygons checked: the scaled zones when that list is non-empty, else the loaded zones. |
| ZoneOccupancy.ZoneManager.CheckOccupancy | python/core/utils.py:63-84 | One entry per checked zone (scaled zones if any, else the loaded ones). Entry i is true iff some ankle's polygon test is ≥ 0 for zone i. active_count is the number of true entries, between 0 and the zone count, and is 0 for no ankles. |
| EnergyEstimator.BestMatch | python/core/utils.py:147-156 | The inner scan returns, if anything, an index among the previous points scanned. |
| EnergyEstimator.BestMatchIsNearest | python/core/utils.py:147-156 | The match is unused and strictly closer than max_skeleton_match_distance. It is no farther than any other such point, and the lowest index wins a tie. There is no match iff every unused point is at or beyond the ceiling. |
| EnergyEstimator.Greedy | python/core/utils.py:142-160 | The outer loop records one match-or-none per current point. |
| EnergyEstimator.GreedyMatchesValid | python/core/utils.py:146-160 | Every match is a valid previous index strictly under the ceiling and recorded as used. The used set holds only valid indices and has at most as many elements as current points processed. |
| EnergyEstimator.GreedyMatchesAtMostOnce | python/core/utils.py:146-160 | No previous point is matched to two current points. |
| EnergyEstimator.GreedyUsedIsMatched | python/core/utils.py:158-160 | The used set is exactly the set of previous indices some current point was matched to. |
| EnergyEstimator.GreedyTotalCeiling | python/core/utils.py:154-159 | The accumulated movement is below one ceiling per used index. |
| EnergyEstimator.GreedyTotalNonNegative | python/core/utils.py:153-159 | With a non-negative distance the accumulated movement is non-negative. |
| EnergyEstimator.GreedyTotalAtMostPairs | python/core/utils.py:142-160 | The accumulated movement lies between 0 and min(\|current\|, \|previous\|) ceilings. |
| EnergyEstimator.RawEnergy | python/core/utils.py:138-168 | An empty previous or current frame yields 0.0. |
| EnergyEstimator.RawEnergyBounds | python/core/utils.py:138-168 | For a positive scale factor, raw energy is ≥ 0 and ≤ min(\|current\|, \|previous\|) × max_dist / scale_factor. |
| EnergyEstimator.SinglePairEnergy | python/core/utils.py:146-168 | One hip centre per frame, closer than the ceiling, at unit scale: the energy is exactly their distance, dist(current, previous) in that argument order. |
| EnergyEstimator.Smooth | python/core/utils.py:183-185 | The gap to the raw value shrinks by the factor (1 − alpha). For alpha in (0, 1] the result lies between the old smoothed value and the raw value, and alpha = 1 gives the raw value. |
| EnergyEstimator.SmoothRepeatedGap | python/core/utils.py:184 | After n equal raw values, the gap to that value is (1 − alpha)^n times the initial gap. |
| EnergyEstimator.SmoothRepeatedMonotone | python/core/utils.py:184 | Repeating the same raw value moves the smoothed value monotonically toward it, never past it. |
| EnergyEstimator.EnergyCalculator.constructor | python/core/utils.py:110-114 | No previous skeletons, smoothed energy 0.0, scale factor 1.0. |
| EnergyEstimator.EnergyCalculator.SetScaleFactor | python/core/utils.py:116-123 | The scale factor becomes the argument. |
| EnergyEstimator.EnergyCalculator.Calculate | python/core/utils.py:125-168 | The loops return exactly RawEnergy of the old previous frame and the current one (so the greedy and bound lemmas apply). Afterwards prev_skeletons is the current frame. |
| EnergyEstimator.EnergyCalculator.UpdateSmooth | python/core/utils.py:170-185 | The stored and returned smoothed energy is Smooth(alpha, old value, raw). |
| EnergyEstimator.EnergyCalculator.Reset | python/core/utils.py:187-190 | prev_skeletons becomes empty and the smoothed energy 0.0. The scale factor is unchanged. |
| Numeric.Trunc | python/core/state_machine.py:317 | `int(x)` truncates toward zero: for x ≥ 0 it is the floor, for x < 0 the ceiling. |
| Detector.ToDict | python/core/state_machine.py:51-60 | The record's duration is end − start, and the other fields are copied. |
| Detector.Classify | python/core/state_machine.py:93-108 | ("Rally","High") iff peak > rally_energy_req. ("Noise","Low") iff peak ≤ rally_energy_req and peak < walk_energy_cap. ("Serve","Medium") iff walk_energy_cap ≤ peak ≤ rally_energy_req. |
| Detector.ClassifyIgnoresDuration | python/core/state_machine.py:93-108 | The duration argument never affects the classification. |
| Detector.SaveClip | python/core/state_machine.py:288-318 | start = max(0, serve_time − pre_serve_buffer), so start ≥ 0. end is the given end time, and the tag is the classification of the peak. A non-negative peak is stored as its floor. |
| Detector.TrackPeak | python/core/state_machine.py:174-176 | While a clip is open (PROBATION/RALLY), the peak becomes the larger of itself and the energy. Nothing else changes, and in other states nothing changes at all. |
| Detector.ForceCut | python/core/state_machine.py:180-195 | The override fires iff the state is RALLY, the zones are occupied and frames_held + logic_step reaches frames_override_needed. It then closes the clip ending at timestamp − 1.0 and moves to LOCKED. Otherwise the state is unchanged. |
| Detector.Transition | python/core/state_machine.py:197-281 | The state dispatch follows an arrow of the state diagram, and never the RALLY → LOCKED force cut. A clip it closes comes from PROBATION or RALLY, returns to SEARCHING and ends post_point_buffer after the frame. |
| Detector.Step | python/core/state_machine.py:174-281 | One update (peak tracking, then the override, then the dispatch) moves along an arrow of SEARCHING → LOCKED → PROBATION → RALLY, PROBATION/RALLY → SEARCHING, RALLY → LOCKED. A clip is returned only from PROBATION or RALLY. |
| Detector.InitialContextInv | python/core/state_machine.py:63-77 | A fresh context satisfies the machine invariant. |
| Detector.StepPreservesInv | python/core/state_machine.py:147-286 | Under a valid configuration, every update preserves the invariant. The invariant: the clip peak is ≥ 0, the threshold in PROBATION/RALLY is within the rails, the LOCKED baseline is non-empty, and frames_held is 0 in PROBATION. |
| Detector.StepClipShape | python/core/state_machine.py:174-195 | A clip closes only from PROBATION or RALLY. Its start is max(0, serve_time − pre_serve_buffer) ≥ 0 and its peak is int(max(old peak, energy)). Afterwards the state is SEARCHING with end = timestamp + post_point_buffer, or LOCKED (force cut) with end = timestamp − 1.0. |
| Detector.SearchingStep | python/core/state_machine.py:199-207 | Below the zone minimum: frames_held = 0 and an empty baseline, still SEARCHING. At or above it: frames_held grows by logic_step, the energy is appended, and LOCKED is entered exactly when frames_held ≥ frames_start_needed. No clip either way. |
| Detector.LockedStep | python/core/state_machine.py:211-230 | The energy is always appended and low_energy_frames is untouched. The machine leaves only when zones drop below the minimum. It then enters PROBATION with the threshold calibrated from the baseline including this reading, serve_time = timestamp, frames_held = 0 and peak 0. Otherwise nothing else changes. |
| Detector.ServeCalibratesFromReadings | python/core/state_machine.py:211-222 | At the serve the baseline is non-empty, so the threshold is clamp(mean + sensitivity) and never uses the 10.0 fallback. |
| Detector.ProbationHoldsUntilMinDuration | python/core/state_machine.py:236-246 | Before min_point_duration has passed there is no promotion and no cut. Only the low-energy counter and the running peak move: the counter grows below the threshold and resets otherwise, and the peak becomes max(peak, energy). |
| Detector.ProbationAfterMinDuration | python/core/state_machine.py:246-258 | Energy above the threshold promotes to RALLY with the counter 0. Below the threshold, a clip closes iff the counter reaches frames_end_needed, ending at timestamp + post_point_buffer and returning to SEARCHING with frames_held 0 and an empty baseline. Energy equal to the threshold zeroes the counter and does neither (when frames_end_needed > 0). |
| Detector.OcclusionShield | python/core/state_machine.py:263-281 | In RALLY with no skeleton and frames_end_needed > 0, the rally never ends on low energy. If the machine stays in RALLY the counter is 0 and no clip closes. Any clip is a force cut. |
| Detector.RallyLowEnergyEnd | python/core/state_machine.py:263-281 | In RALLY with a skeleton and no force cut, the counter grows by logic_step below the threshold and resets at or above it. The rally ends (SEARCHING, end = timestamp + post_point_buffer) iff the counter reaches frames_end_needed. |
| Detector.ForceCutStep | python/core/state_machine.py:183-212 | In RALLY, occupied zones accumulate frames_held and unoccupied ones zero it. Reaching frames_override_needed closes a clip ending at timestamp − 1.0 and leaves LOCKED with frames_held = frames_start_needed and baseline = [this energy], because the LOCKED branch runs in the same call. |
| Detector.PeakIsRunningMax | python/core/state_machine.py:174-176 | While a clip stays open, its peak is the running maximum of the smoothed energy. |
| Detector.Run | python/core/state_machine.py:283-286 | A sequence of updates yields at most one clip per update. |
| Detector.RunPreservesInv | python/core/state_machine.py:147-286 | Any sequence of updates preserves the machine invariant. |
| Detector.HoldArmsAfterEnoughFrames | python/core/state_machine.py:199-204 | From SEARCHING with frames_held 0, k ≥ 1 occupied frames of step s ≥ 1 arm the machine (LOCKED) exactly when k·s ≥ frames_start_needed. Until then it stays in SEARCHING with frames_held = k·s. The baseline grows by one reading per frame and no clip is produced. |
| Detector.DefaultBuffersAreOrdered | python/core/config.py:40-47 | The default buffers (pre 4 s, post −1 s, minimum point 2.5 s) are ordered. |
| Detector.StepClipEndsAfterStart | python/core/state_machine.py:236-318 | With ordered buffers, a frame no earlier than the last keeps the timing facts. Those facts: an open clip's serve is in [0, last frame], and a rally started at least min_point_duration after its serve. A clip the frame closes has start < end. |
| Detector.RunClipsEndAfterStart | python/core/state_machine.py:147-318 | With ordered buffers and frames in time order from a non-negative start, every clip closed by the run has start < end. |
| Detector.InvertedClipUnderValidConfig | python/core/state_machine.py:246-258 | A configuration the validation accepts (defaults with post_point_buffer −10) closes the clip [6.0, 2.5] from a serve at 10 s and a low-energy end at 12.5 s. |
| Detector.StateName | python/core/state_machine.py:329-331 | The enum name reported for each state. |
| Detector.StateNameInjective | python/core/state_machine.py:329-331 | Distinct states report distinct names. |
| Detector.StateMachineContext.constructor | python/core/state_machine.py:63-77 | SEARCHING, zero counters, serve time 0, peak 0, empty baseline, threshold 40.0. |
| Detector.StateMachineContext.UpdatePeak | python/core/state_machine.py:174-176 | In PROBATION/RALLY the peak becomes max(peak, energy). In other states nothing changes. |
| Detector.StateMachineContext.ApplyForceCut | python/core/state_machine.py:180-195 | The in-place force-cut block computes exactly the force-cut step on the context. |
| Detector.StateMachineContext.ApplyTransition | python/core/state_machine.py:197-281 | The in-place state dispatch computes exactly the transition step on the context. |
| Detector.StateMachine.constructor | python/core/state_machine.py:128-145 | A fresh context, no clips, and the three precomputed frame counts. |
| Detector.StateMachine.Update | python/core/state_machine.py:147-286 | The new context and the returned clip are exactly Step of the old context. The clip list grows by exactly the returned clip, and earlier clips are unchanged. The invariant is kept. |
| Detector.StateMachine.GetThreshold | python/core/state_machine.py:333-335 | In PROBATION/RALLY the reported threshold lies within the configured rails. |
| Detector.StateMachine.Reset | python/core/state_machine.py:320-323 | A fresh context in SEARCHING and an empty clip list. |
| Detector.StateMachine.GetClips | python/core/state_machine.py:325-327 | Returns the clips closed so far. |
| Renderer.Replace | python/tools/renderer.py:158-160 | A string without the pattern character is returned unchanged. |
| Renderer.ReplaceAppend | python/tools/renderer.py:158-160 | Replacing a single character distributes over concatenation. |
| Renderer.ReplaceEachAppend | python/tools/renderer.py:159-160 | The loop of replaces distributes over concatenation. |
| Renderer.PairStageOnChar | python/tools/renderer.py:159-160 | On one character, the five replaces put a single backslash before a quoted character. The backslashes they add are not escaped again. |
| Renderer.EscapeChainOnChar | python/tools/renderer.py:158-160 | On one character, the whole replace chain yields that character's escape. |
| Renderer.EscapeChar | python/tools/renderer.py:158-160 | Newline becomes a space. CR and NUL are dropped. A backslash, ', :, % or " gets a preceding backslash. Any other character is unchanged. |
| Renderer.EscapedAppend | python/tools/renderer.py:158-160 | escape(a + b) = escape(a) + escape(b). |
| Renderer.EscapeChainIsPerChar | python/tools/renderer.py:158-160 | The sequence of replaces equals the per-character escape on every string. |
| Renderer.EscapeDrawtext | python/tools/renderer.py:156-161 | The result is the per-character escape of the input. |
| Renderer.EscapedHasNoControl | python/tools/renderer.py:158 | The output contains no newline, carriage return or NUL. |
| Renderer.EscapedPlainIsIdentity | python/tools/renderer.py:158-160 | A string with none of the eight special characters is returned unchanged. |
| Renderer.EscapedLength | python/tools/renderer.py:158-160 | Output length = input length + count of backslash, ', :, %, " − count of CR and NUL. |
| Renderer.EscapedQuotesArePreceded | python/tools/renderer.py:159-160 | Every ', :, % and " in the output comes immediately after a backslash. |
| Renderer.Kept | python/tools/renderer.py:143 | The comprehension's condition: `keep` (default true) is not the value false, and `status` (default null) is not "trash". |
| Renderer.KeptClips | python/tools/renderer.py:141-144 | The filter never lengthens the list. |
| Renderer.KeptClipsExactly | python/tools/renderer.py:141-144 | Exactly the clips whose `keep` is not false and whose `status` is not "trash" survive, each as many times as it occurs. |
| Renderer.KeptClipsAppend | python/tools/renderer.py:141-144 | filter(a + b) = filter(a) + filter(b), so the kept clips keep their relative order. |
| Renderer.KeepIsIdentityNotTruthiness | python/tools/renderer.py:143 | Only the literal false in `keep` drops a clip. A missing key, true, null or 0 keeps it. |

## Left out

- python/main.py: video decoding, frame batching, timing, progress output and JSON writing are I/O. The model takes each frame's signals and `logic_step` as inputs.
- python/core/detection.py: YOLO pose inference and device selection are calls into foreign libraries. Hip centres and ankles are inputs.
- python/tools/visualizer.py, python/tools/zone_wizard_poly.py and the rest of python/tools/renderer.py: interactive OpenCV UI, drawing, and ffmpeg/ffprobe subprocesses.
- `cv2.pointPolygonTest` and `np.linalg.norm` are parameters, with only the facts the code relies on: the sign of the test, and a non-negative distance.
- Floating point: energies, times and distances are exact reals. `round(..., 3)` in `to_dict` is not modelled beyond duration = end − start.
- The 32-bit range of `astype(np.int32)` is not modelled: coordinates truncate toward zero without wrapping.
- Reading zone and clip files (`load_zones`, `load_clips`) is I/O. The model starts from the parsed data, and clip entries are JSON objects (a non-object entry would raise in the source).
- Debug printing (`debug_mode`), the configuration's file paths, colours and `show_visuals` switch: output only.
- Detector.StateMachine.constructor: takes the three frame counts `int(x * fps)` as given integers instead of computing them from `fps`.
- ZoneOccupancy.ZoneManager.ScaleZones: requires a non-zero original width. The source raises ZeroDivisionError there, and the model does not represent that exception.
- EnergyEstimator.EnergyCalculator.SetScaleFactor: requires a non-zero factor. The source accepts 0, after which `calculate` raises ZeroDivisionError on the next call where both frames have hip centres; that path is not modelled.
- EnergyEstimator.EnergyCalculator.Calculate: `prev_skeletons` aliases the caller's list in the source, while the model stores a value. Later mutation of that list by the caller is not captured.
