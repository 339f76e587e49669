# Policy under pressure: a Dafny model of the racing simulator and its ES agent

The system is a small research platform. It studies how driving policies behave when
their reward or their sensors are tampered with. This project models its core and
proves properties of the model:

- **Track.** A closed two-dimensional centreline with a width. A car's position is
  projected onto the nearest centreline point, which gives a tangent, a curvature and a
  signed lateral distance. The off-track test and the start pose follow from that
  projection. The procedural layout is smoothed by three passes of Chaikin corner
  cutting.
- **Vehicle.** A point-mass car. Its inputs are clipped, its speed is held in [0, 20]
  and its heading is wrapped.
- **Environment.** Episodes in the gym style. The step counter truncates at 1000 steps.
  Each step may carry a sensor-corruption configuration (additive noise, then masked
  slots) and a per-step friction override. Rewards may pass through a delay buffer, and
  leaving the track costs the car four fifths of its speed.
- **Rewards.** A library of reward strategies behind a two-call interface, `compute`
  and `reset`:
  - progress;
  - broken (speed only);
  - control, with the lap wrap corrected both ways;
  - an exploitable variant of control;
  - misaligned;
  - penalty sensitivity;
  - speed demon;
  - parker;
  - safety sensitivity;
  - mastery, survival and ES-friendly, which correct only forward wraps;
  - driving, which tracks no progress.
- **ES agent.** A three-layer tanh network kept as six weight blocks. It has a running
  observation normaliser, a throttle floor, perturbed clones, a fitness-weighted update
  and an in-memory checkpoint record. The training scripts' flat-vector update is
  modelled beside it.
- **Wrappers.** A wrapper that adds noise to actions and observations, and a reward
  delay line.
- **Replay.** The viewer's replay loop. It interpolates between recorded keyframes,
  keeps a running reward and two 80-point trails, and moves the playback clock by
  seek, reset and per-frame advance.

Numbers are `real`. The transcendental functions (sin, cos, atan2, tanh, sqrt) enter
as a `Math` record of total functions. The predicate `Lawful` states the range facts the
proofs use. Every random draw is a parameter:

- the anchor angles and radial scales;
- `randn` blocks;
- noise vectors.

Classes model the entities whose fields change in place:

- the car;
- the track;
- the environment;
- the stateful rewards;
- the agent;
- the delay wrapper;
- the replay hook's state.

Each class method is tied to a pure specification function, and the properties are
proved about those functions.

Files: `basics.dfy` (Option and Result), `numerics.dfy`, `track.dfy`, `dynamics.dfy`,
`definitions.dfy`, `control.dfy`, `segment4.dfy`, `cheating.dfy`, `mastery.dfy`,
`survival.dfy`, `driving.dfy`, `es_friendly.dfy`, `strategy.dfy` (the reward interface),
`delay.dfy`, `car_env.dfy`, `wrappers.dfy`, `es.dfy`, `race_loop.dfy`.

## Model

| member | source | states |
|---|---|---|
| Numerics.Clip | backend/physics/dynamics.py:46-47 | The result lies in [lo, hi]; it is x when x is in range, lo below the range and hi above it. |
| Numerics.Wrap | backend/physics/dynamics.py:57 | `(a + pi) % 2pi - pi` with a floored remainder. It lies in [-pi, pi), differs from a by whole turns, and fixes every angle already in [-pi, pi). |
| TrackGeometry.ParseLayout | backend/env/track.py:6-13 | Succeeds exactly for "oval", "figure8" and "random". Any other name fails with "Unknown track_type: " and the name. |
| TrackGeometry.CreateTrack | backend/env/track.py:4-15 | A track is built exactly when its name parses, with that layout. An unknown name yields the parse error and builds nothing. |
| TrackGeometry.Track.constructor | backend/env/track.py:4-15 | Sets the layout and width 8.0. The centreline is the oval, the figure eight or the procedural centreline of the draw. |
| TrackGeometry.Track.Regenerate | backend/env/track.py:17-21 | The procedural layout gets the newly drawn centreline. A fixed layout keeps its centreline. |
| TrackGeometry.ChaikinStepPoints | backend/env/track.py:110-116 | Edge i -> i+1 (mod n) contributes the 0.75/0.25 point at 2i and the 0.25/0.75 point at 2i+1. |
| TrackGeometry.ChaikinIterateLength | backend/env/track.py:107-118 | Every pass doubles the number of points. |
| TrackGeometry.ChaikinIterateInBox | backend/env/track.py:107-118 | Corner cutting never leaves an axis-aligned box containing the input points. |
| TrackGeometry.AnchorInBox | backend/env/track.py:94-100 | With a radial scale in [0.4, 1.1], an anchor lies in [0.5, 99.5] x [4.2, 65.8]. |
| TrackGeometry.RandomCenterlineShape | backend/env/track.py:79-120 | 24 anchors give 192 points, all inside [0.5, 99.5] x [4.2, 65.8]. |
| TrackGeometry.ChaikinPass | backend/env/track.py:108-118 | The loop that appends two cut points per edge builds exactly one Chaikin pass. |
| TrackGeometry.GenerateRandom | backend/env/track.py:79-120 | The anchors followed by three passes give the procedural centreline, with 8 points per anchor. |
| TrackGeometry.ArgMin | backend/env/track.py:128-130 | The index holds a minimum of the distances, and no earlier index holds a value that small. |
| TrackGeometry.ClosestPointInfo | backend/env/track.py:122-171 | Gives the lowest-index nearest point and the tangent towards point (i+1) mod n. The curvature is the wrapped heading change to (i+2) mod n and lies in [-pi, pi). The signed distance is +d, -d or 0 as the cross product is positive, negative or zero. |
| TrackGeometry.SignedDistBounded | backend/env/track.py:131-169 | The absolute signed distance never exceeds the distance to the nearest point. |
| TrackGeometry.OffTrackIff | backend/env/track.py:173-175 | Off the track exactly when the cross product is nonzero and the distance to the nearest point exceeds half the width. |
| TrackGeometry.StartPoseOnCenterline | backend/env/track.py:177-181 | The start position, centreline[0], projects to index 0 with signed distance 0, so the car starts on the track with progress 0. |
| TrackGeometry.TrackProgress | backend/env/car_env.py:97 | `closest_idx / len(centerline)` lies in [0, 1). |
| VehicleDynamics.NextState | backend/physics/dynamics.py:44-63 | The next speed lies in [0, 20] and the wrapped heading in [-pi, pi). The position advances along the new heading at the new speed. |
| VehicleDynamics.ClippedInputsAreEquivalent | backend/physics/dynamics.py:46-47 | Out-of-range steering and throttle act exactly as their clipped values. |
| VehicleDynamics.FullThrottleFromRest | backend/physics/dynamics.py:50-52 | From rest at full throttle with friction in (0, 10], speed never decreases and never exceeds min(20, 5/f). |
| VehicleDynamics.CoastingNeverSpeedsUp | backend/physics/dynamics.py:50-52 | With the throttle closed, a nonnegative speed never increases. |
| VehicleDynamics.CarDynamics.constructor | backend/physics/dynamics.py:4-15 | The car starts at the origin, at rest, with base friction 1.0 times the scale. |
| VehicleDynamics.CarDynamics.Reset | backend/physics/dynamics.py:17-22 | Sets the given pose with zero speed and returns it. |
| VehicleDynamics.CarDynamics.Step | backend/physics/dynamics.py:24-34 | The new state is the next state at the override's friction, or at the base friction without one; the base friction constant is untouched. Without an override the car lands where the previous PeekStep predicted. Speed and heading stay in range. |
| CarEnvironment.ObserveMeaning | backend/env/car_env.py:150-167 | The observation is the signed lateral distance, the wrapped heading error, the speed and the curvature, each taken from the nearest-point projection. |
| CarEnvironment.Observe | backend/env/car_env.py:150-167 | The observation has four slots, and the heading error and curvature lie in [-pi, pi). |
| CarEnvironment.ZeroMasked | backend/env/car_env.py:110-111 | The masking loop zeroes exactly the listed slots, counting negative indices from the end. |
| CarEnvironment.CorruptSlots | backend/env/car_env.py:106-111 | A masked slot reads 0. Any other slot reads the observation plus its noise. |
| CarEnvironment.CorruptNothing | backend/env/car_env.py:106 | Without a configuration the observation is returned unchanged. |
| CarEnvironment.MaskHidesLateralError | backend/env/car_env.py:109-114 | Masking slot 0 makes the info's lateral error 0, whatever the car's true offset. |
| CarEnvironment.StepInfoKeys | backend/env/car_env.py:116-125 | The step's info never sets distance_from_center, delta_progress, progress_bonus or crashed. Its progress lies in [0, 1). |
| CarEnvironment.AfterSoftCrash | backend/env/car_env.py:142-143 | Off the track the speed drops to a fifth and the pose is kept. On the track nothing changes. |
| CarEnvironment.CarEnv.constructor | backend/env/car_env.py:10-49 | A supplied strategy wins. Otherwise "broken" selects the speed-only strategy and any other name the progress strategy on this env's track. The car starts at rest with the scaled friction, and the buffer is empty at step 0. |
| CarEnvironment.CreateEnv | backend/env/car_env.py:10-49 | An environment is built exactly when the track name parses. Otherwise the track's error is returned. |
| CarEnvironment.CarEnv.Reset | backend/env/car_env.py:51-66 | The car is placed at the given start pose, or the track's own, at rest. The counter returns to 0 and the buffer holds N zeros. The strategy's memory is reset, and the info is empty. |
| CarEnvironment.CarEnv.RegenerateTrack | backend/env/car_env.py:68-71 | The procedural track gets the new centreline and a fixed layout keeps its own. The env then resets: the car at the track's start pose at rest, step 0, the delay buffer back to N zeros, and the reward strategy reset. Nothing is returned. |
| CarEnvironment.CarEnv.Step | backend/env/car_env.py:73-148 | The counter goes up by one. The car moves with the unclipped action and the configured friction. The observation is corrupted, and the info takes its errors from the corrupted observation. The reward is the strategy's value at the pre-crash state, passed through the delay buffer, and the strategy's memory advances. The soft crash applies after all that. terminated is false, and truncated holds iff the counter has reached 1000. |
| CarEnvironment.CarEnv.DelayReward | backend/env/car_env.py:132-139 | The reported reward and the new buffer are the environment delay step of the raw reward. |
| RewardDelay.EnvDelayAfterReset | backend/env/car_env.py:64 | After a reset with N > 0, step k reports 0 for k <= N and the raw reward of step k - N after that; the buffer keeps N entries. |
| RewardDelay.EnvDelayRunFull | backend/env/car_env.py:132-139 | With a full buffer of N, the reports are the buffer followed by the raw rewards, cut to the run's length. |
| RewardDelay.EnvDelayRunNone | backend/env/car_env.py:138-139 | With N <= 0 every raw reward passes straight through and the buffer is untouched. |
| RewardDelay.EnvDelayIsShift | backend/experiments/wrappers.py:46-52 | With a full buffer, the environment's delay and the wrapper's delay agree step by step. |
| RewardStrategy.InterfaceLaws | backend/rewards/definitions.py:4-16 | Neither call changes which strategy is in use or its parameters. Reset forgets everything compute remembered and is idempotent. |
| RewardStrategy.AdvanceRemembersProgress | backend/rewards/control.py:72 | The progress-tracking strategies remember this call's progress (0 when absent). |
| RewardStrategy.ComputeReward | backend/rewards/definitions.py:6-13 | The reward is the strategy's value for its memory before the call, and the memory advances. |
| RewardStrategy.ResetReward | backend/rewards/definitions.py:15-16 | The memory becomes the strategy's reset memory. |
| RewardDefinitions.ProgressOffTrack | backend/rewards/definitions.py:35-38 | Off the track the progress reward is exactly -10, whatever else holds. |
| RewardDefinitions.NormEps | backend/rewards/definitions.py:51-52 | Norm plus 1e-6 is at least 1e-6 and at least the tangent's length, so the division is always defined. |
| RewardDefinitions.ProgressOnTrackBounded | backend/rewards/definitions.py:44-63 | On the track the reward is at most 0.1 times the speed minus 0.05 times the absolute steering. |
| RewardDefinitions.SpeedAlongTrackBounded | backend/rewards/definitions.py:44-58 | The velocity projected onto the nearest edge's unit tangent never exceeds the speed. |
| RewardDefinitions.ProgressReward.Reset | backend/rewards/definitions.py:23-24 | last_progress returns to 0. |
| RewardDefinitions.BrokenIgnoresAllButSpeed | backend/rewards/definitions.py:71-73 | The broken reward depends on the speed alone. |
| RewardDefinitions.BrokenValue | backend/rewards/definitions.py:71-73 | The broken reward is nonnegative for a nonnegative speed. |
| RewardDefinitions.ForwardDelta | backend/rewards/mastery.py:49-53 | Only a drop of more than half a lap gains a lap. For positions on the lap the result stays above -0.5. |
| RewardDefinitions.ForwardDeltaRewardsBackwardJump | backend/rewards/mastery.py:49-53 | A backward crossing of the start line (0.01 to 0.99) is paid as 0.98 of progress. |
| ControlRewards.ProgressDelta | backend/rewards/control.py:39-49 | The delta is the raw difference give or take one lap. It is unchanged within [-0.5, 0.5], and for positions on the lap it lies in [-0.5, 0.5]. |
| ControlRewards.ProgressDeltaIsShortest | backend/rewards/control.py:39-49 | For positions on the lap, no whole number of laps added to the raw difference is shorter than the corrected delta. |
| ControlRewards.ForwardDeltaAgreesUnlessBackwardJump | backend/rewards/control.py:44-47 | The one-way and two-way corrections agree exactly when the raw difference is at most 0.5. |
| ControlRewards.ControlValueAtMost270 | backend/rewards/control.py:45-69 | For progress in [0, 1) the reward never exceeds 270. |
| ControlRewards.ControlValue270Reached | backend/rewards/control.py:51-69 | 270 is reached: half a lap forward with no errors, steering held and on the track. |
| ControlRewards.ControlValueNeutral | backend/rewards/control.py:51-69 | No progress, no errors, steering held and on the track give exactly the bias of 20. |
| ControlRewards.ControlValueOffTrack | backend/rewards/control.py:64-65 | Switching only the off-track flag on lowers the reward by exactly 50. |
| ControlRewards.ControlValueDefaults | backend/rewards/control.py:33-39 | Missing keys read as 0.0, or as False for off_track. |
| ControlRewards.ControlValueMonotoneInErrors | backend/rewards/control.py:55-57 | Larger lateral or heading errors never raise the reward. |
| ControlRewards.ControlReward.constructor | backend/rewards/control.py:22-25 | Both remembered values start at 0. |
| ControlRewards.ControlReward.Reset | backend/rewards/control.py:27-29 | Both remembered values return to 0. |
| ControlRewards.ControlReward.Compute | backend/rewards/control.py:31-75 | The accumulated reward equals the control value, with progress corrected both ways, for the remembered progress and steering; the call then remembers this call's progress and steering. |
| Segment4Rewards.ExploitBonusBounds | backend/rewards/segment4.py:39-51 | The bonus is never negative, and for steering in [-1, 1] it is at most 1. |
| Segment4Rewards.ExploitBonusGrazeIsStrict | backend/rewards/segment4.py:42-44 | The grazing bonus is paid strictly inside (1, 2) of lateral error, and not at 1 or 2. |
| Segment4Rewards.ExploitBonusMaximum | backend/rewards/segment4.py:39-51 | The full bonus of 1.0 is reached at full lock while grazing. |
| Segment4Rewards.ExploitableReward.constructor | backend/rewards/segment4.py:24-26 | Owns a fresh control reward at its initial state. |
| Segment4Rewards.ExploitableReward.Reset | backend/rewards/segment4.py:28-31 | Resets the wrapped control reward. |
| Segment4Rewards.ExploitableReward.Compute | backend/rewards/segment4.py:33-57 | The control value plus the exploit bonus; the wrapped control reward's memory advances. |
| Segment4Rewards.MisalignedFavoursSpeed | backend/rewards/segment4.py:75-87 | One more unit of speed outweighs up to 100 extra units of lateral error. |
| Segment4Rewards.SensitivityWithoutProgressNonPositive | backend/rewards/segment4.py:113-128 | With no delta_progress key and nonnegative coefficients the reward is never positive. |
| Segment4Rewards.SensitivityConfigsScaleBaseline | backend/rewards/segment4.py:132-138 | Exactly the five named configurations exist. Each scales both baseline coefficients (2.0, 1.0) by one common factor: 1, 0.8, 0.9, 1.1 or 1.2. |
| CheatingRewards.SpeedDemonValue | backend/rewards/cheating.py:16-21 | Twice the speed, nonnegative for a nonnegative speed. |
| CheatingRewards.SpeedDemonIgnoresSafety | backend/rewards/cheating.py:16-21 | Going off the track or crashing never changes the reward. |
| CheatingRewards.ParkerBounds | backend/rewards/cheating.py:37-44 | The cosine of the heading error lies in [-1, 1] and is 1 when the key is absent. |
| CheatingRewards.ParkerIgnoresSpeed | backend/rewards/cheating.py:37-44 | Speed never enters the parker reward. |
| CheatingRewards.SafetySensitivityIgnoresProgressBonus | backend/rewards/cheating.py:58-74 | The progress_bonus key is read but never changes the result. |
| CheatingRewards.SafetySensitivityCrash | backend/rewards/cheating.py:71-73 | A crash lowers the reward by exactly 100. |
| CheatingRewards.SafetySensitivityMonotone | backend/rewards/cheating.py:58-74 | A larger safety coefficient never raises the reward. |
| MasteryRewards.MasterySlowCostsOne | backend/rewards/mastery.py:40-41 | Dropping below speed 0.5 costs exactly 1. |
| MasteryRewards.MasteryOffTrackCostsTwenty | backend/rewards/mastery.py:61-62 | Going off the track costs exactly 20. |
| MasteryRewards.MasteryDistanceCost | backend/rewards/mastery.py:44-45 | An absent distance costs nothing, and each unit of distance costs 0.3. |
| MasteryRewards.MasteryLapBonus | backend/rewards/mastery.py:48-57 | A forward crossing of the start line pays 50 plus ten times the corrected progress. |
| MasteryRewards.MasteryBackwardJumpPays | backend/rewards/mastery.py:48-57 | A backward jump of more than half a lap is not corrected and is paid as progress. |
| MasteryRewards.MasteryReward.Reset | backend/rewards/mastery.py:19-20 | prev_progress returns to 0. |
| MasteryRewards.MasteryReward.Compute | backend/rewards/mastery.py:22-64 | The accumulated reward is the mastery value for the remembered progress. The call then remembers this call's progress. |
| SurvivalRewards.NextLaps | backend/rewards/survival.py:35-38 | The lap counter rises by one exactly when progress drops by more than half a lap, and otherwise stays. |
| SurvivalRewards.LapsOverMonotone | backend/rewards/survival.py:35-38 | Within an episode the counter never decreases and rises by at most one per call. |
| SurvivalRewards.SurvivalLapBonus | backend/rewards/survival.py:31-52 | A completed lap, moving and on the track, pays 100 plus five times the corrected progress. |
| SurvivalRewards.SurvivalStandingStill | backend/rewards/survival.py:44-46 | Standing still after a reset, on the track, costs exactly 0.5. |
| SurvivalRewards.SurvivalReward.Reset | backend/rewards/survival.py:22-24 | prev_progress and laps_completed return to 0. |
| SurvivalRewards.SurvivalReward.Compute | backend/rewards/survival.py:26-52 | The accumulated reward is the survival value. The call remembers this call's progress and counts a lap exactly on a forward wrap. |
| DrivingRewards.DrivingFactor | backend/rewards/driving.py:28-31 | For a nonnegative distance the factor lies in [0, 1]; it falls linearly from 1 to 0 at distance 2 and stays at 0 beyond. |
| DrivingRewards.DrivingBounds | backend/rewards/driving.py:28-36 | On the track the reward lies in [0, speed], and at distance 2 or more it is 0. |
| DrivingRewards.DrivingOffTrack | backend/rewards/driving.py:39-40 | Off the track the reward is exactly -10, whatever the speed. |
| DrivingRewards.DrivingWithoutDistanceIsSpeed | backend/rewards/driving.py:25-36 | With no distance key, on the track, the reward is the speed. |
| ESFriendlyRewards.CenterlineFactor | backend/rewards/es_friendly.py:49 | For a nonnegative distance the factor lies in [0, 1]; it is 1 - d/2 up to distance 2 and 0 from there. |
| ESFriendlyRewards.ESFriendlyFarFromCenter | backend/rewards/es_friendly.py:37-58 | Two or more units from the centre, only the 200 lap bonus is left. |
| ESFriendlyRewards.ESFriendlyCentredByDefault | backend/rewards/es_friendly.py:45-58 | With no distance key the car counts as centred: 50 times the progress plus 0.1 times the speed, plus 200 on a forward wrap. |
| ESFriendlyRewards.ESFriendlyIgnoresOffTrack | backend/rewards/es_friendly.py:25-62 | The off-track flag is never read. |
| ESFriendlyRewards.ESFriendlyReward.Reset | backend/rewards/es_friendly.py:22-23 | prev_progress returns to 0. |
| ESFriendlyRewards.ESFriendlyReward.Compute | backend/rewards/es_friendly.py:25-62 | The accumulated reward is the ES-friendly value for the remembered progress. The call then remembers this call's progress. |
| EnvWrappers.ActionSent | backend/experiments/wrappers.py:16-21 | Without action noise the action is forwarded as it is. With noise every component lies in [-1, 1], and it equals action plus noise wherever that sum is in range. |
| EnvWrappers.ResultReturned | backend/experiments/wrappers.py:23-30 | Without observation noise the inner result is returned unchanged. With noise only the observation changes, by the added draw. |
| EnvWrappers.DelayWrapper.Reset | backend/experiments/wrappers.py:42-44 | The buffer becomes delay_steps zeros. |
| EnvWrappers.DelayWrapper.Step | backend/experiments/wrappers.py:46-52 | The step appends the inner reward and reports the front entry. The buffer keeps its length, and everything but the reward passes through. |
| EnvWrappers.DelayAfterReset | backend/experiments/wrappers.py:42-52 | After a reset with delay d, step k reports 0 for k <= d and the inner reward of step k - d after that. |
| EnvWrappers.NoDelayPassesThrough | backend/experiments/wrappers.py:46-52 | With an empty buffer every reward passes straight through. |
| RewardDelay.ShiftRunDelays | backend/experiments/wrappers.py:46-52 | Over any run the wrapper reports its buffer first, then the rewards it was given. |
| EvolutionStrategies.ParamCountFormula | backend/agents/es.py:18-32 | param_count is in*h + h + h*h + h + h*out + out. |
| EvolutionStrategies.UnflattenFlatten | backend/agents/es.py:50-62 | Cutting the flat vector of well-shaped blocks gives back the same blocks. |
| EvolutionStrategies.FlattenUnflatten | backend/agents/es.py:50-62 | Flattening the blocks cut from a long enough vector gives its first param_count numbers. |
| EvolutionStrategies.UnflattenIgnoresTail | backend/agents/es.py:54-62 | Numbers after the last block do not change the blocks. |
| EvolutionStrategies.StatStep | backend/agents/es.py:66-67 | alpha = 1/min(count, 1000) lies in [1/1000, 1]. |
| EvolutionStrategies.NextMean | backend/agents/es.py:68 | Each entry of the new mean lies between the old mean and the observation, and alpha 1 gives the observation. |
| EvolutionStrategies.NextStd | backend/agents/es.py:69-70 | Every std entry is at least 0.01, and each entry is the blended deviation or the floor. |
| EvolutionStrategies.Standardised | backend/agents/es.py:71 | Each entry times its std is the observation minus the mean. |
| EvolutionStrategies.FirstObservationAfterReset | backend/agents/es.py:43-48 | After a reset, the first observation becomes the mean, every std drops to 0.01, and the normalised output is all zeros. |
| EvolutionStrategies.Forward | backend/agents/es.py:79-86 | The network gives output_dim values, each strictly inside (-1, 1). |
| EvolutionStrategies.ActionOf | backend/agents/es.py:89-96 | Steering is the first output. Throttle is (out[1] + 1)/2 floored at 0.3, and stays below 1 for outputs inside (-1, 1). |
| EvolutionStrategies.CentredSumsToZero | backend/agents/es.py:138 | The standardised rewards add up to zero. |
| EvolutionStrategies.EqualRewardsCentreToZero | backend/agents/es.py:138 | When every rollout scores the same, every standardised reward is zero. |
| EvolutionStrategies.PopStdNonNegative | backend/agents/es.py:138 | The population std is never negative, so `std + 1e-8` is positive. |
| EvolutionStrategies.FitnessWeightsSumToZero | backend/agents/es.py:135-138 | The fitness weights the update uses add up to zero. |
| EvolutionStrategies.GradientOfZeroWeights | backend/agents/es.py:141-146 | Rollouts with zero weight add nothing to the gradient. |
| EvolutionStrategies.AccumulateGradient | backend/agents/es.py:141-146 | The nested loop gives the fitness-weighted sum of the noises, block by block. |
| EvolutionStrategies.AddLayersInPlace | backend/agents/es.py:149-150 | The in-place block loop adds c times each noise block to its weight block. |
| EvolutionStrategies.EqualRewardsKeepWeights | backend/agents/es.py:128-150 | When every rollout scores the same, the update leaves every block as it was. |
| EvolutionStrategies.AddZeroLayers | backend/agents/es.py:141 | Adding zero blocks leaves the weights unchanged. |
| EvolutionStrategies.GenerationUpdate | train_segment4_sensitivity.py:139-145 | The flat update is skipped when the rewards' std is at most 1e-6. Otherwise it adds alpha/(N sigma) times the std-normalised weighted noise. |
| EvolutionStrategies.GenerationUpdateSkipsEqualRewards | train_segment4_sensitivity.py:139-145 | Equal rewards have zero spread, so the flat update returns theta. |
| EvolutionStrategies.SaveThenLoad | backend/agents/es.py:152-161 | Loading the record that save writes (lines 102-107) restores the weights and the statistics, whatever the agent held before. |
| EvolutionStrategies.LegacyLoadKeepsStatistics | backend/agents/es.py:162-164 | An old-format vector loads exactly when it is long enough. It sets only the weights; the normaliser keeps its statistics. |
| EvolutionStrategies.RecordDefaults | backend/agents/es.py:158-161 | A record without statistics restarts the count at 0 and keeps the mean and std. |
| EvolutionStrategies.ESAgent.constructor | backend/agents/es.py:6-41 | Each block is 0.1 times its draw. The mean starts at 0 and the std at 1, the count and the previous action are zero, and smoothing is 0.7. |
| EvolutionStrategies.ESAgent.FlatWeights | backend/agents/es.py:50-52 | Gives param_count numbers that cut back into the same blocks. |
| EvolutionStrategies.ESAgent.SetFlatWeights | backend/agents/es.py:54-62 | Succeeds exactly when the vector holds param_count numbers or more. It then sets the cut blocks; otherwise nothing changes. |
| EvolutionStrategies.ESAgent.NormalizeObs | backend/agents/es.py:64-71 | The count goes up by one. The mean and std take one running-statistics step, and the result is the standardised observation. |
| EvolutionStrategies.ESAgent.Predict | backend/agents/es.py:73-98 | Normalises the observation, then maps the forward pass to an action. Steering lies in (-1, 1) and throttle in [0.3, 1). The weights are untouched. |
| EvolutionStrategies.ESAgent.Reset | backend/agents/es.py:43-48 | The mean returns to 0 and the std to 1; the count and the previous action become zero. The weights are kept. |
| EvolutionStrategies.ESAgent.GetPerturbedAgent | backend/agents/es.py:112-126 | A fresh clone whose blocks are this agent's plus sigma times the noise. The clone's statistics are copied, and this agent is unchanged. |
| EvolutionStrategies.ESAgent.Update | backend/agents/es.py:128-150 | Succeeds exactly when there are results and sigma is nonzero. The blocks then become the fitness-weighted update; otherwise nothing changes. |
| EvolutionStrategies.ESAgent.Load | backend/agents/es.py:152-164 | The state becomes the payload's restored snapshot. A vector that is too short changes nothing. |
| RaceReplay.Lerp | frontend/src/hooks/useRaceLoop.ts:5 | Weight 0 gives a and weight 1 gives b. |
| RaceReplay.LerpBetween | frontend/src/hooks/useRaceLoop.ts:5 | For weights in [0, 1] the result lies between the two ends. |
| RaceReplay.AngleDiff | frontend/src/hooks/useRaceLoop.ts:9-11 | The normalised difference lies in [-pi, pi] and differs from b - a by whole turns. A difference already in range is kept. |
| RaceReplay.LerpAngle | frontend/src/hooks/useRaceLoop.ts:8-13 | The two loops end on the normalised difference, and the result is a plus that difference times t. |
| RaceReplay.TurnDown | frontend/src/hooks/useRaceLoop.ts:10 | The subtracting loop removes exactly the turns needed to reach at most pi. |
| RaceReplay.TurnUp | frontend/src/hooks/useRaceLoop.ts:11 | The adding loop adds exactly the turns needed to reach at least -pi. |
| RaceReplay.InterpolatedEnds | frontend/src/hooks/useRaceLoop.ts:15-29 | Alpha 0 gives the earlier keyframe. Alpha 1 gives the later one, with its heading up to whole turns. |
| RaceReplay.InterpolateState | frontend/src/hooks/useRaceLoop.ts:15-29 | Every field is interpolated (the heading the short way round), and the cumulative reward is carried. |
| RaceReplay.PrevIndex | frontend/src/hooks/useRaceLoop.ts:58-65 | The index is a valid index with a successor (unless there is one keyframe). Every keyframe after the start, up to the index, is not after the time, and the next one is later or ends the last pair. |
| RaceReplay.ClampedTime | frontend/src/hooks/useRaceLoop.ts:55 | The clamped time is the time or the last keyframe's time, whichever is smaller. |
| RaceReplay.NextIndex | frontend/src/hooks/useRaceLoop.ts:68 | The next index is prevIdx + 1, or the last index when prevIdx is the last. |
| RaceReplay.StateAt | frontend/src/hooks/useRaceLoop.ts:49-87 | Gives null exactly for an empty trajectory. |
| RaceReplay.FindPrevIndex | frontend/src/hooks/useRaceLoop.ts:58-65 | The search loop with its break settles on the keyframe search's index. |
| RaceReplay.SumRewards | frontend/src/hooks/useRaceLoop.ts:75-78 | The loop adds up the rewards of keyframes 0..prevIdx. |
| RaceReplay.GetStateAtTime | frontend/src/hooks/useRaceLoop.ts:49-87 | Gives the interpolated state and the cumulative reward: the rewards through prevIdx plus alpha times prev's reward. |
| RaceReplay.AlphaInUnitInterval | frontend/src/hooks/useRaceLoop.ts:71-72 | With sorted times and a time not before the first keyframe, the earlier keyframe is not after the clamped time. Alpha lies in [0, 1]. |
| RaceReplay.AlphaAtStart | frontend/src/hooks/useRaceLoop.ts:71-72 | At the earlier keyframe's own time alpha is 0, including when the two keyframes share a time. |
| RaceReplay.ReplayAtKeyframe | frontend/src/hooks/useRaceLoop.ts:49-87 | With increasing times, replaying at any keyframe but the last shows that keyframe with the rewards of keyframes 0..k. |
| RaceReplay.ReplayAtEnd | frontend/src/hooks/useRaceLoop.ts:74-79 | At the last keyframe's time the counter shows the rewards of keyframes 0..n-2 plus keyframe n-2's reward again. |
| RaceReplay.FinalRewardDropped | frontend/src/hooks/useRaceLoop.ts:74-79 | Times 0, 1, 2 with rewards 1, 0, 5 end the replay at 1, while the rewards add up to 6. |
| RaceReplay.IntendedStateAt | frontend/src/hooks/useRaceLoop.ts:49-87 | The corrected replay gives null exactly for an empty trajectory, and its state carries the interpolated running total. |
| RaceReplay.IntendedReplayAtKeyframe | frontend/src/hooks/useRaceLoop.ts:74-79 | With the interpolated running total, replaying at any keyframe shows the rewards of keyframes 0..k. That includes the last keyframe. |
| RaceReplay.IntendedCumulativeBetween | frontend/src/hooks/useRaceLoop.ts:74-79 | For alpha in [0, 1] the corrected total lies between the totals at the two keyframes. |
| RaceReplay.PushTrail | frontend/src/hooks/useRaceLoop.ts:95-98 | The trail keeps at most 80 points and ends with the new one. A short trail grows by that one point; a full one drops its oldest. |
| RaceReplay.SampleAndPush | frontend/src/hooks/useRaceLoop.ts:91-99 | With data and a sample, the shown state becomes the sample's and the trail is extended; otherwise both stay. |
| RaceReplay.RaceLoop.MaxTime | frontend/src/hooks/useRaceLoop.ts:44-47 | The longer of the two recordings' total times, with 0 for a missing one. |
| RaceReplay.RaceLoop.constructor | frontend/src/hooks/useRaceLoop.ts:32-42 | The hook starts paused at time 0, at speed 1, looping, with no states and empty trails. |
| RaceReplay.RaceLoop.DataChanged | frontend/src/hooks/useRaceLoop.ts:154-160 | New data returns the clock to 0 and clears both trails and both states. |
| RaceReplay.RaceLoop.Play | frontend/src/hooks/useRaceLoop.ts:162-173 | Playing starts. The last frame time is forgotten only when playing was stopped, because only then does the effect on `isPlaying` run. |
| RaceReplay.RaceLoop.Pause | frontend/src/hooks/useRaceLoop.ts:174 | Playing stops. Nothing else changes. |
| RaceReplay.RaceLoop.Reset | frontend/src/hooks/useRaceLoop.ts:175-179 | The clock returns to 0 and the trails are cleared. |
| RaceReplay.RaceLoop.Seek | frontend/src/hooks/useRaceLoop.ts:181-185 | The clock is clamped to [0, maxTime], an in-range time is kept, and the trails are cleared. |
| RaceReplay.RaceLoop.Animate | frontend/src/hooks/useRaceLoop.ts:116-147 | The clock advances by the elapsed milliseconds times the speed. At or past maxTime it wraps to 0 and clears the trails when looping, or stops at maxTime otherwise. It never passes maxTime. |
| RaceReplay.RaceLoop.UpdateStates | frontend/src/hooks/useRaceLoop.ts:89-114 | Both replays are sampled at the current time. Each state and trail is updated when its sample exists, and the trails stay within 80 points. |

## Left out

- File and pickle I/O. `save` and `load` work on an in-memory record (`Payload`), and gym spaces and seeding are not modelled.
- Floating point. Numbers are mathematical reals: float32 casts, rounding, NaN and infinity are not modelled.
- The transcendental functions. sin, cos, atan2, tanh and sqrt are parameters constrained only by range facts (`Lawful`).
- Randomness. The anchor jitter and radial scales, the `randn` blocks for initialisation and perturbation, and the noise draws of the noise wrapper are all parameters.
- The analytic oval and figure-eight generators. Their centrelines are given sequences (`FixedCenterlines`), because they are pure trigonometry.
- Numerics.Wrap: every angle wrap follows the code, `((a + pi) mod 2pi) - pi`, and so lies in [-pi, pi). The source's comments say [-pi, pi].
- EvolutionStrategies.LegacyLoadKeepsStatistics: it follows the code. An old-format checkpoint sets only the weights and leaves the normaliser as it was. It does not reset the normaliser.
- CarEnvironment.Corrupt: NumPy broadcasting is modelled only for the shapes the step can accept. A noise vector has one entry or four (`NoiseFits`). Mask indices lie in [-4, 3] (`MaskFits`); other shapes raise in the source.
- EvolutionStrategies.ESAgent.Copy: `copy.deepcopy` is a constructor that copies every field into a fresh agent.
- EvolutionStrategies.GenerationUpdate: requires a non-empty population and a nonzero sigma. With an empty population the script fails earlier, at `rewards.max()`. With sigma = 0, NumPy's array division gives inf or nan instead of raising. Neither path is modelled.
- EvolutionStrategies.ESAgent.Predict: requires output_dim >= 2. With fewer outputs the source raises an IndexError, which is not modelled.
- EvolutionStrategies.ESAgent.Update: the raising cases are modelled as `ok == false` with the weights unchanged. Those cases are no results, where np.mean of an empty list also warns; and sigma = 0, where the division raises.
- The info keys the environment never sets (distance_from_center, delta_progress, progress_bonus, crashed) are modelled as absent keys with each strategy's default.
- React's state batching, effect scheduling and `requestAnimationFrame`. Each hook callback is a method that runs to completion, and `setPlaybackSpeed` and `setLoop` are plain field writes that are not modelled.
- RaceReplay.RaceLoop.DataChanged: keeps `lastTime`. In the source, a change of data while playing changes `animate`, which re-runs the playing effect and zeroes `lastTimeRef`. That re-run is not modelled.
- Logging: the warning that `regenerate` prints for a fixed layout is not modelled. TrackGeometry.Track.Regenerate only keeps the centreline.
- EnvWrappers.DelayWrapper.constructor takes `delaySteps: nat`. In the source, a negative `delay_steps` gives an empty buffer and acts like 0. Also not modelled: the `track` argument of the control, exploitable, misaligned, penalty-sensitivity, survival, driving and ES-friendly rewards, which they store and never read.
- RaceReplay.StateAt: follows the code as written, including the cumulative reward at the last keyframe (see Findings). The corrected version is `IntendedStateAt`.
- Keyword defaults are not modelled: `hidden_dim=128` in the agent's constructor, `sigma=0.1` and `alpha=0.01` in `get_perturbed_agent` and `update`, and the keyword defaults of `CarEnv`. Every argument is passed explicitly.
- CarEnvironment.CarEnv.Step: requires an action with at least two entries. With fewer, the source raises an IndexError after `current_step` has already been incremented; that failing path is not modelled.
- The PPO agent, the training and analysis scripts apart from the flat ES update, the experiment runner in `backend/experiments/core.py`, and the frontend pages and canvases are not part of this model.

## Findings

| source | as written | input that shows it | evidently intended | confidence | as-written member | corrected member |
|---|---|---|---|---|---|---|
| frontend/src/hooks/useRaceLoop.ts:74-79 | The counter adds the rewards of keyframes 0..prevIdx plus alpha times prev's reward. At the last keyframe (prevIdx = n-2, alpha = 1) it counts keyframe n-2's reward twice and never counts the last keyframe's. | Keyframes at t = 0, 1, 2 with rewards 1, 0, 5, replayed at t = 2, show 1 where the rewards total 6. | The running total up to keyframe k is interpolated towards the total up to k+1, so every keyframe shows the sum of the rewards through it. | not executed | RaceReplay.FinalRewardDropped | RaceReplay.IntendedReplayAtKeyframe |
