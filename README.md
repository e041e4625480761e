# Acoustic room-size estimation, modelled in Dafny

The client estimates how large the space around the listener is by casting rays from the
listener's position. It then picks a reverb preset for every playing sound from that estimate.
The estimator exists in two versions, and both are modelled here, together with the ray kernel
the newer one is built on.

**The reflective ray kernel** (`ReflectiveRaySystem.cs`, module `ReflectiveRay`).
- A `ReflectiveRayState` is advanced one segment at a time.
- A probe query looks for the nearest reflective surface.
- On a hit, the state moves to the hit point, the segment just travelled is scanned, and the
  state reflects off the surface normal.
- On a miss, the segment is scanned and the state moves forward by its translation.
- An iterating overload repeats the step under an iteration cap and, optionally, a range budget.

**The acoustic data system** (`AcousticDataSystem.cs`, module `AcousticData`).
- It casts one jittered ray per compass direction through the kernel. Each ray is capped at
  `maxBounces + 1` segments and ends when a segment reaches 30% of the range or the summed
  segments reach the range.
- Along the way, each ray sums the absorption of the entities it passes, with an inverse-square
  falloff.
- It averages the rays' ranges, smooths the average against the previous pass, and scales it by
  clamped absorption, escape and roof penalties.
- It classifies the result through an ascending threshold table. The outcome is a decision to
  apply a preset or remove the effect.

**The older echo system** (`AudioEchoSystem.cs`, module `AudioEcho`).
- It has its own step record, `EchoRayStep`, which keeps the ledger
  `TotalDistance + RemainingDistance`.
- A ray escapes when a segment is longer than 45% of the range.
- Absorption uses a linear falloff, and the penalties are percentages floored at 0.01.
- An unroofed listener keeps 0.3 of the magnitude.

**Shared modules.**
- `Vectors`: 2-D vectors and `Vector2.Reflect` by its definition.
- `Environment`: the hits, the queries and the listener.
- `Compass`: the cast directions.
- `Presets`: the first-match threshold classifier.
- `Stats`: averages, clamping and the smoothing.

**How the mutable code is modelled.**
- The structures the source mutates through `ref` are classes: `ReflectiveRayState`,
  `EchoRayStep`, and the two systems with their `prevAvgMagnitude` field.
- Every helper that mutates a structure is a method. Its postcondition equates the new
  `View()` snapshot with a pure function of the old one. The properties of each update are
  stated on that function.
- Each loop is proved against a recursive trace function built the way the loop builds its
  results: `Iterate`, `BounceLoop`, `EchoLoop`. Lemmas about these traces state the caps, the
  escape rule, the range budget and the totals.
- The loops and their pass methods take the step and the absorption as ghost function values,
  together with a requirement that these are the real ones. The public entry points supply the
  real ones (`Stepper`, `Absorber`, `EchoStepper`, `EchoAbsorber`).

**How the outside world is modelled.** It comes in as values:
- a `SpatialQuery` answers the probe and the path scans for a given origin and translation;
- a `Geometry` supplies `Vector2.Distance`, `Vector2.Normalize` and `Angle.ToVec`;
- `Surroundings` gives each entity's absorption data and its distance to the listener;
- a `Listener` carries the validity, tile, space and roof flags;
- the random jitter of each direction is a parameter.

## Model

| member | source | states |
|---|---|---|
| ReflectiveRay.ReflectiveRayState.constructor | Content.Shared/_VDS/Physics/Raycast/ReflectiveRaySystem.cs:269-291 | A new state sits at the origin. Segment, remaining distance and range all equal `maxRange`. Translation and probe translation are `direction * maxRange`. There is no normal, and the surface offset is 0.001. |
| ReflectiveRay.StateForward | Content.Shared/_VDS/Physics/Raycast/ReflectiveRaySystem.cs:158-169 | Moving forward sets `OldPos` to the previous position and `CurrentPos` to `OldPos + Translation`. The segment is the larger of 0.05 and the distance. `RemainingDistance` drops by exactly the segment, so by at least 0.05. The new translation is `Direction * segment`. Direction, probe translation, range, normal and offset are unchanged. |
| ReflectiveRay.UpdateStateForward | Content.Shared/_VDS/Physics/Raycast/ReflectiveRaySystem.cs:158-169 | The in-place update leaves exactly the state `StateForward` describes. |
| ReflectiveRay.StateToPos | Content.Shared/_VDS/Physics/Raycast/ReflectiveRaySystem.cs:204-216 | Moving to a hit sets `CurrentPos` to the hit point and `OldPos` to the previous position. The segment is the larger of 0 and the distance. `RemainingDistance` drops by the segment and never increases. Direction, probe translation, range, normal and offset are unchanged. |
| ReflectiveRay.UpdateStateToPos | Content.Shared/_VDS/Physics/Raycast/ReflectiveRaySystem.cs:204-216 | The in-place update leaves exactly the state `StateToPos` describes. |
| ReflectiveRay.StateReflect | Content.Shared/_VDS/Physics/Raycast/ReflectiveRaySystem.cs:243-255 | A reflection needs a normal. It moves `CurrentPos` by `normal * offset` and sets `Direction` to the normalised reflection. Translation becomes `Direction * segment` and probe translation `Direction * MaxRange`. `OldPos`, segment, remaining distance and range are unchanged. |
| ReflectiveRay.UpdateStateReflect | Content.Shared/_VDS/Physics/Raycast/ReflectiveRaySystem.cs:243-255 | The in-place update needs a normal and leaves exactly the state `StateReflect` describes. |
| ReflectiveRay.StateAfterProbe | Content.Shared/_VDS/Physics/Raycast/ReflectiveRaySystem.cs:111-124 | A missed probe leaves the state as it was. A hit moves the state to the first hit point and records that hit's normal. |
| ReflectiveRay.TryUpdateStateToProbeHit | Content.Shared/_VDS/Physics/Raycast/ReflectiveRaySystem.cs:111-124 | The method returns true exactly when the probe hit. On false the state is untouched. |
| ReflectiveRay.Step | Content.Shared/_VDS/Physics/Raycast/ReflectiveRaySystem.cs:60-93 | The probe scans from `CurrentPos` along `ProbeTranslation`. On a hit, the path scan runs from the pre-step position over the new segment, after the move and before the reflection. The new direction is the normalised reflection off the hit normal. On a miss, the path scan uses the old `OldPos`/`Translation`, and the state then moves forward. In both cases the remaining distance drops by the new segment, which is never negative. |
| ReflectiveRay.CastAndUpdateReflectiveRayStateRef | Content.Shared/_VDS/Physics/Raycast/ReflectiveRaySystem.cs:60-93 | The single-step overload returns the probe and path results and leaves the state that `Step` describes. |
| ReflectiveRay.StepperKeepsBudget | Content.Shared/_VDS/Physics/Raycast/ReflectiveRaySystem.cs:60-93 | Every step takes its new segment off the remaining distance and keeps the range. |
| ReflectiveRay.CastAndIterateReflectiveRayStateRef | Content.Shared/_VDS/Physics/Raycast/ReflectiveRaySystem.cs:28-43 | The iterating overload returns the (probe, path) pairs of the trace `Iterate` describes, in order, and leaves that trace's final state. |
| ReflectiveRay.IterateLength | Content.Shared/_VDS/Physics/Raycast/ReflectiveRaySystem.cs:35-41 | The overload returns nothing when `maxIterations <= 0`. Otherwise it returns between 1 and `maxIterations` entries, and exactly `maxIterations` without the range budget. |
| ReflectiveRay.IterateBudget | Content.Shared/_VDS/Physics/Raycast/ReflectiveRaySystem.cs:33-41 | The remaining distance drops by the summed segments and `MaxRange` is kept. With the budget, the running total before the last step is below `MaxRange`, and a trace cut short has reached `MaxRange`. |
| ReflectiveRay.IterateBudgetEveryStep | Content.Shared/_VDS/Physics/Raycast/ReflectiveRaySystem.cs:33-41 | With the budget, the running total after each step before the last is below `MaxRange`, since the loop only goes on while it is. |
| ReflectiveRay.MissAfterBounceScansFromBeforeTheBounce | Content.Shared/_VDS/Physics/Raycast/ReflectiveRaySystem.cs:84-87 | Take a missed probe right after a bounce. Its path scan starts at the position before the bounce, which is what the code does. |
| ReflectiveRay.BounceOffWallExample | Content.Shared/_VDS/Physics/Raycast/ReflectiveRaySystem.cs:250 | Direction (-1, 0) hitting normal (1, 0) leaves heading (1, 0). |
| Vectors.ReflectFlipsNormalComponent | Content.Shared/_VDS/Physics/Raycast/ReflectiveRaySystem.cs:250 | For a unit normal, reflection negates the component along the normal. |
| Vectors.ReflectKeepsTangent | Content.Shared/_VDS/Physics/Raycast/ReflectiveRaySystem.cs:250 | Reflection keeps every component orthogonal to the normal. |
| Vectors.ReflectKeepsLength | Content.Shared/_VDS/Physics/Raycast/ReflectiveRaySystem.cs:250 | For a unit normal, reflection keeps the squared length. |
| Vectors.ReflectInvolution | Content.Shared/_VDS/Physics/Raycast/ReflectiveRaySystem.cs:250 | Reflecting twice off the same unit normal gives the original direction. |
| Presets.MatchIndex | Content.Client/_VDS/Audio/AcousticDataSystem.cs:258-268 | The result is the first threshold index at or above the magnitude, or the last index when there is none. |
| Presets.MatchIndexCharacterised | Content.Client/_VDS/Audio/AcousticDataSystem.cs:258-268 | Any index with the first-match property is the one `MatchIndex` returns. |
| Presets.MatchMonotone | Content.Client/_VDS/Audio/AcousticDataSystem.cs:258-268 | A larger magnitude never selects an earlier entry. In an ascending table it never selects a smaller threshold. |
| Presets.MatchFallback | Content.Client/_VDS/Audio/AcousticDataSystem.cs:266-267 | A magnitude above every threshold selects the last entry. |
| Presets.BestPreset | Content.Client/_VDS/Audio/AcousticDataSystem.cs:258-268 | The first-match loop returns the preset at `MatchIndex`. |
| Presets.Decide | Content.Client/_VDS/Audio/AcousticDataSystem.cs:187-193 | The decision is Apply exactly when the magnitude exceeds the smallest threshold. It then carries the best preset, which is never the first entry. |
| Compass.GetEffectiveDirections | Content.Client/_VDS/Audio/AcousticDataSystem.cs:276-290 | Without high resolution the directions are exactly [North, West, South, East]. With it there is one angle per `AllDirections` entry, in order. |
| Stats.AverageBounds | Content.Client/_Mono/Audio/AudioEchoSystem.cs:287-290 | The LINQ average lies within any bounds that hold for every element. |
| Stats.AverageNonNegative | Content.Client/_Mono/Audio/AudioEchoSystem.cs:287-288 | The average of non-negative values is non-negative. |
| Stats.Clamp | Content.Client/_VDS/Audio/AcousticDataSystem.cs:551 | The result lies between the bounds. It is the value itself inside them, and the nearer bound outside them. |
| Stats.SmoothMagnitudeBetween | Content.Client/_VDS/Audio/AcousticDataSystem.cs:515-517 | A stored value above float.Epsilon moves a quarter of the way towards the new average, so the result lies between the two. Otherwise the average is taken as is. |
| Stats.SmoothingConverges | Content.Client/_Mono/Audio/AudioEchoSystem.cs:292-294 | Take repeated passes that see the same positive average. The gap to that average shrinks by a factor of 0.75 per pass. |
| Stats.SmoothingFromNothing | Content.Client/_VDS/Audio/AcousticDataSystem.cs:515-517 | Starting with nothing stored, the first pass stores the average. A constant average then stays fixed. |
| AcousticData.GetBestReverbPreset | Content.Client/_VDS/Audio/AcousticDataSystem.cs:258-268 | The result is the preset of the first threshold at or above the magnitude. Up to 10 this is "SpaceStationCupboard"; above 70 it is "Hangar". |
| AcousticData.ReverbPresetsAscending | Content.Client/_VDS/Audio/AcousticDataSystem.cs:68-80 | The table is strictly ascending, so a larger magnitude never selects a smaller room. |
| AcousticData.ReverbPresetExamples | Content.Client/_VDS/Audio/AcousticDataSystem.cs:68-80 | 10 gives "SpaceStationCupboard", 11 "DustyRoom", 45 "ConcertHall" and 71 "Hangar". |
| AcousticData.NormalizeToPercentage | Content.Client/_VDS/Audio/AcousticDataSystem.cs:548-552 | The result always lies in [0, maxClamp]. It is 0 at or below `minValue`, and reaches maxClamp once the share does. |
| AcousticData.InverseNormalizeToPercentage | Content.Client/_VDS/Audio/AcousticDataSystem.cs:557-561 | This is `NormalizeToPercentage(maxValue - value, …)`. It lies in [0, maxClamp]: 0 once the value reaches the span, maxClamp for small enough values. |
| AcousticData.NormalizeMonotone | Content.Client/_VDS/Audio/AcousticDataSystem.cs:548-561 | The percentage is non-decreasing in the value, and the inverse percentage non-increasing. |
| AcousticData.InverseSquareFalloff | Content.Client/_VDS/Audio/AcousticDataSystem.cs:484-488 | The falloff `5/(5+d²)`, with d floored at 1, lies in (0, 5/6]. It equals 5/6 within distance 1. |
| AcousticData.InverseSquareFalloffAntitone | Content.Client/_VDS/Audio/AcousticDataSystem.cs:484-488 | A farther entity never gets a larger falloff. |
| AcousticData.GetAcousticAbsorption | Content.Client/_VDS/Audio/AcousticDataSystem.cs:472-495 | A contribution has the coefficient's sign and at most 5/6 of its size. Within distance 1 it is exactly 5/6 of the coefficient. |
| AcousticData.GatherAbsorption | Content.Client/_VDS/Audio/AcousticDataSystem.cs:440-453 | The foreach over the hits adds the absorption of every hit with data and changes nothing else. |
| AcousticData.CastAcousticSegment | Content.Client/_VDS/Audio/AcousticDataSystem.cs:430-453 | One kernel step adds its segment to `TotalRange` and counts a bounce when the probe hit. It adds the absorption of the path hits and, on a hit, the probe's wall. |
| AcousticData.AcousticPass | Content.Client/_VDS/Audio/AcousticDataSystem.cs:430-464 | One loop pass appends the next step to the trace and keeps the totals equal to the trace's. It stops exactly when the step escaped or the range budget is spent. |
| AcousticData.CastReflectiveAcousticRay | Content.Client/_VDS/Audio/AcousticDataSystem.cs:415-467 | The ray's results are the totals of the trace `BounceLoop` describes with `maxBounces + 1` passes. The state is left at that trace's end. |
| AcousticData.BounceLoopIsAcousticTrace | Content.Client/_VDS/Audio/AcousticDataSystem.cs:421-465 | The loop-shaped trace equals the recursive trace definition, starting from a total range of 0. |
| AcousticData.AcousticTraceLength | Content.Client/_VDS/Audio/AcousticDataSystem.cs:421 | A trace with passes has between 1 and that many steps. Every step keeps the range and the surface offset. |
| AcousticData.AcousticTraceEnds | Content.Client/_VDS/Audio/AcousticDataSystem.cs:456-464 | The first step runs from the start state. A trace cut short ends with a step that escaped or spent the range. |
| AcousticData.AcousticTraceSuccessor | Content.Client/_VDS/Audio/AcousticDataSystem.cs:430 | Each later step runs from the state the previous one left. |
| AcousticData.AcousticTraceContinues | Content.Client/_VDS/Audio/AcousticDataSystem.cs:456-464 | No step before the last escaped or spent the range. |
| AcousticData.AcousticRayResultsCharacterised | Content.Client/_VDS/Audio/AcousticDataSystem.cs:421-465 | Over one ray: at most `maxBounces + 1` steps. `TotalEscapes` is 0 or 1, and 1 exactly when the last segment was at least 0.3 of `MaxRange`. `TotalRange` is the sum of the segments, and stayed below `MaxRange` before the last step. `TotalBounces` counts the steps whose probe hit. |
| AcousticData.FirstSegmentEscapes | Content.Client/_VDS/Audio/AcousticDataSystem.cs:456-460 | A ray whose first segment escapes takes exactly one step and reports one escape. |
| AcousticData.ResetState | Content.Client/_VDS/Audio/AcousticDataSystem.cs:388-393 | Before each ray, both positions go to the origin and the direction to the jittered one. Translation and probe translation become `direction * MaxRange`, and the remaining distance `MaxRange`. |
| AcousticData.CastManyReflectiveAcousticRays | Content.Client/_VDS/Audio/AcousticDataSystem.cs:376-405 | The results and the final state are those of `ManyRays`: one reset and one ray per jittered direction, in order. |
| AcousticData.ManyRaysCount | Content.Client/_VDS/Audio/AcousticDataSystem.cs:385-402 | There is exactly one result per direction. |
| AcousticData.ManyRaysAreIndependent | Content.Client/_VDS/Audio/AcousticDataSystem.cs:385-402 | Each ray's result equals that of a fresh ray from the origin along its direction. Nothing the previous ray left behind leaks into it. |
| AcousticData.SampledRaysAreIndependent | Content.Client/_VDS/Audio/AcousticDataSystem.cs:383-404 | The same holds for the real kernel step, with ray k cast along `dirs[k] + jitters[k]`. |
| AcousticData.TryCastAndGetEnvironmentAcousticData | Content.Client/_VDS/Audio/AcousticDataSystem.cs:302-365 | Sampling succeeds exactly when the listener is valid, has a transform, stands on a resolvable non-space tile, and there are directions. On success it yields one result per direction, as `SampleEnvironment` describes; on failure the list is empty. |
| AcousticData.AbsorptionFactorRange | Content.Client/_VDS/Audio/AcousticDataSystem.cs:521 | The absorption factor lies in [0, 1.3]. It is 0 from an average of 100, at least 1 at or below 0, and 1.3 from -30 down. |
| AcousticData.EscapeFactorRange | Content.Client/_VDS/Audio/AcousticDataSystem.cs:522 | The escape factor lies in [0.10, 1]. It is 1 with no escapes and 0.10 when every ray escaped. |
| AcousticData.AmplitudeWithinClamp | Content.Client/_VDS/Audio/AcousticDataSystem.cs:519-532 | With the factors in range, the amplitude of a non-negative length lies in [0, 1.3 × length]. |
| AcousticData.AmplitudeUnroofed | Content.Client/_VDS/Audio/AcousticDataSystem.cs:525-532 | An unroofed listener keeps at most a tenth of that. |
| AcousticData.AmplitudeSilenced | Content.Client/_VDS/Audio/AcousticDataSystem.cs:521 | A zero absorption factor silences the amplitude. |
| AcousticData.AmplitudeKeepsLength | Content.Client/_VDS/Audio/AcousticDataSystem.cs:519-522 | Take a roofed listener, no escapes and an absorption factor of at least 1. The amplitude is then at least the smoothed length. |
| AcousticData.AcousticDataSystem.constructor | Content.Client/_VDS/Audio/AcousticDataSystem.cs:119-127 | Nothing is stored at start-up, and the reflection count comes from the configuration. The directions are north, west, south and east, or with high resolution the angle of each `AllDirections` entry, in order. |
| AcousticData.AcousticDataSystem.CalculateAmplitude | Content.Client/_VDS/Audio/AcousticDataSystem.cs:503-543 | The stored value becomes the smoothed average range. The amplitude is that value times the absorption and escape factors, times 0.10 when unroofed. The other fields are unchanged. |
| AcousticData.AcousticDataSystem.ProcessAcoustics | Content.Client/_VDS/Audio/AcousticDataSystem.cs:172-194 | A failed sample leaves the magnitude at 0 and the stored value alone, and removes the effect. Otherwise the magnitude is `CalculateAmplitude`'s. The preset is applied exactly when the magnitude exceeds 10, and is then the best one. |
| AudioEcho.GetBestPreset | Content.Client/_Mono/Audio/AudioEchoSystem.cs:142-152 | The result is the preset of the first threshold at or above the magnitude. Up to 18 this is "Hallway"; above 50 it is "Hangar". |
| AudioEcho.DistancePresetsAscending | Content.Client/_Mono/Audio/AudioEchoSystem.cs:63-69 | The table is strictly ascending, so a larger magnitude never selects a smaller room. |
| AudioEcho.DistancePresetExamples | Content.Client/_Mono/Audio/AudioEchoSystem.cs:63-69 | 18 gives "Hallway", 19 "Auditorium" and 60 "Hangar". |
| AudioEcho.PercentagesFloored | Content.Client/_Mono/Audio/AudioEchoSystem.cs:334-345 | Both percentages are at least 0.01. The inverse one is 1 at value 0, and the direct one 1 at the total. For a positive total both stay at most 1 inside [0, total]. |
| AudioEcho.PercentagesComplement | Content.Client/_Mono/Audio/AudioEchoSystem.cs:334-345 | Away from the floor, the two percentages add up to 1. |
| AudioEcho.InverseNormalizeAntitone | Content.Client/_Mono/Audio/AudioEchoSystem.cs:334-337 | For a positive total, a larger value never gives a larger inverse percentage. |
| AudioEcho.LinearFalloffRange | Content.Client/_Mono/Audio/AudioEchoSystem.cs:470 | The linear factor lies in [0, 100]. It is at least 1 within one segment length, and 0 from twice that. |
| AudioEcho.LinearFalloffAntitone | Content.Client/_Mono/Audio/AudioEchoSystem.cs:470 | A farther entity never gets a larger factor. |
| AudioEcho.HitAbsorptionSign | Content.Client/_Mono/Audio/AudioEchoSystem.cs:451-474 | A hit without absorption data adds nothing. Otherwise the contribution has the coefficient's sign and is at most 100 times its size. |
| AudioEcho.AbsorptionSumNonNegative | Content.Client/_Mono/Audio/AudioEchoSystem.cs:414-417 | With non-negative coefficients, the hits of a scan never reduce the absorption. |
| AudioEcho.EchoRayStep.constructor | Content.Client/_Mono/Audio/AudioEchoSystem.cs:356-367 | A new step record sits at the start with nothing travelled and the whole range remaining. Its translations are `direction * maxDistance` and `direction * maxProbeLength`. |
| AudioEcho.ProbeStep | Content.Client/_Mono/Audio/AudioEchoSystem.cs:476-494 | Moving to the probe's hit keeps `TotalDistance + RemainingDistance`. The segment is the distance to the hit, floored at 0, and is added to `TotalDistance`. `OldPos` becomes the previous `NewPos`, and `NewPos` the hit point. The translation becomes `Direction * segment` and the probe translation `Direction * MaxProbeDistance`. Direction and probe length are unchanged. |
| AudioEcho.UpdateProbeStep | Content.Client/_Mono/Audio/AudioEchoSystem.cs:476-494 | The in-place update leaves exactly the record `ProbeStep` describes. |
| AudioEcho.ReflectStep | Content.Client/_Mono/Audio/AudioEchoSystem.cs:496-508 | The step moves `NewPos` by `normal * 0.05` and sets `OldPos` to it. The direction becomes the normalised reflection. The translation becomes `Direction * NewDistance` and the probe translation `Direction * MaxProbeDistance`. All distances are unchanged. |
| AudioEcho.UpdateProbeStepReflect | Content.Client/_Mono/Audio/AudioEchoSystem.cs:496-508 | The in-place update leaves exactly the record `ReflectStep` describes. |
| AudioEcho.ForwardStep | Content.Client/_Mono/Audio/AudioEchoSystem.cs:510-524 | Moving on by the translation keeps `TotalDistance + RemainingDistance`. The segment becomes the distance covered and is added to `TotalDistance`. The translation becomes `Direction * segment`. Direction, probe translation and probe length are unchanged. |
| AudioEcho.UpdateStepForward | Content.Client/_Mono/Audio/AudioEchoSystem.cs:510-524 | The in-place update leaves exactly the record `ForwardStep` describes. |
| AudioEcho.EchoIteration | Content.Client/_Mono/Audio/AudioEchoSystem.cs:380-430 | One iteration keeps `TotalDistance + RemainingDistance`. Its probe scans from `NewPos` along `ProbeTranslation`. On a hit the record moves to the wall and then bounces off the normalised normal, the path is scanned from the pre-probe `NewPos` along the new translation, and hits are weighed with the new segment. On a miss the path is scanned from `OldPos` along the old translation, hits are weighed with the previous segment, and the record moves forward. With non-negative distances it never shortens the distance travelled. |
| AudioEcho.EchoStepperKeepsLedger | Content.Client/_Mono/Audio/AudioEchoSystem.cs:476-524 | Every iteration keeps the ledger. With non-negative distances it never shortens the distance travelled. |
| AudioEcho.UpdateAcousticData | Content.Client/_Mono/Audio/AudioEchoSystem.cs:451-474 | A hit adds its absorption to the total and changes nothing else. |
| AudioEcho.GatherHits | Content.Client/_Mono/Audio/AudioEchoSystem.cs:411-418 | The foreach adds the absorption of every path hit and changes nothing else. |
| AudioEcho.CastIteration | Content.Client/_Mono/Audio/AudioEchoSystem.cs:380-430 | The record becomes the one `EchoIteration` describes. The probe's wall is weighed first, then the path hits. On a hit both use the new segment; on a miss the path hits use the previous iteration's segment, which is 0 on the first iteration. A bounce is counted exactly when the probe hit. |
| AudioEcho.EchoPass | Content.Client/_Mono/Audio/AudioEchoSystem.cs:380-447 | One pass appends the next iteration and keeps the totals equal to the trace's. It stops exactly when the iteration escaped or the budget is used up. |
| AudioEcho.CastAudioRay | Content.Client/_Mono/Audio/AudioEchoSystem.cs:347-449 | The ray's statistics are the totals of the trace `EchoLoop` describes with `maxIterations + 1` passes. The trace starts from a record at the start position heading along the normalised direction. |
| AudioEcho.EchoLoopShape | Content.Client/_Mono/Audio/AudioEchoSystem.cs:378-447 | There is at most one iteration per pass, and fewer only when the ray ended. No iteration but the last ends it. Each iteration runs from the record the previous one left. |
| AudioEcho.EchoLoopLedger | Content.Client/_Mono/Audio/AudioEchoSystem.cs:356-367 | After any number of passes, `TotalDistance + RemainingDistance` still equals its starting value, `maxDistance`. |
| AudioEcho.TallyFacts | Content.Client/_Mono/Audio/AudioEchoSystem.cs:421-441 | `TotalBounces` counts the iterations whose probe hit. `TotalEscapes` is 1 exactly when the last iteration escaped. `Magnitude` is the last `TotalDistance`. |
| AudioEcho.TallyAbsorptionNonNegative | Content.Client/_Mono/Audio/AudioEchoSystem.cs:400-417 | With non-negative coefficients, a ray's absorption total is non-negative. |
| AudioEcho.EchoRayCharacterised | Content.Client/_Mono/Audio/AudioEchoSystem.cs:378-448 | Over one ray: at most `maxIterations + 1` iterations. `TotalEscapes` is 0 or 1, and 1 exactly when the last segment exceeded 0.45 of the range. A ray cut short escaped or spent its budget, and no earlier iteration did either. `TotalBounces` counts the probe hits. `Magnitude` is the distance travelled, which is the starting budget less the budget left. |
| AudioEcho.CastJitteredRay | Content.Client/_Mono/Audio/AudioEchoSystem.cs:269-276 | One ray is cast along the jittered angle, with the range as both budget and probe length. |
| AudioEcho.CastRays | Content.Client/_Mono/Audio/AudioEchoSystem.cs:267-279 | There is exactly one result per direction, in order. Result i is the ray along `dirs[i] + jitters[i]`. |
| AudioEcho.EscapePenaltyAtMostOnePercent | Content.Client/_Mono/Audio/AudioEchoSystem.cs:301 | An escape average in [0, 1] gives an escape factor in [0.99, 1]. |
| AudioEcho.EchoMagnitudeBounds | Content.Client/_Mono/Audio/AudioEchoSystem.cs:298-311 | The magnitude lies in [0, smoothed], and at most 0.3 of it when unroofed. An absorption average of 99 or more leaves at most a hundredth. |
| AudioEcho.EchoSampleBounds | Content.Client/_Mono/Audio/AudioEchoSystem.cs:286-290 | A successful sample is non-empty and its escape average lies in [0, 1]. With non-negative distances the range average is non-negative, and with non-negative coefficients so is the absorption average. |
| AudioEcho.AreaMagnitudeBounds | Content.Client/_Mono/Audio/AudioEchoSystem.cs:286-313 | Over a whole pass, in such surroundings, the magnitude lies between 0 and the newly smoothed average. |
| AudioEcho.AreaEchoSystem.constructor | Content.Client/_Mono/Audio/AudioEchoSystem.cs:160-174 | Nothing is stored at start-up, and the iteration cap comes from the configuration. The directions are north, west, south and east, or with high resolution the angle of each `AllDirections` entry, in order. |
| AudioEcho.AreaEchoSystem.AggregateMagnitude | Content.Client/_Mono/Audio/AudioEchoSystem.cs:286-313 | The stored value becomes the smoothed average magnitude. The result is that value times both inverse percentages, times 0.3 when unroofed. |
| AudioEcho.AreaEchoSystem.TryProcessAreaSpaceMagnitude | Content.Client/_Mono/Audio/AudioEchoSystem.cs:232-329 | The method succeeds exactly when `EchoSample` does. On failure the magnitude is 0 and the stored value is unchanged. On success the magnitude is the aggregate of the sampled rays. |
| AudioEcho.AreaEchoSystem.ProcessAudioEntity | Content.Client/_Mono/Audio/AudioEchoSystem.cs:526-537 | The range is the largest threshold. The preset is applied exactly when the magnitude exceeds 18, and is then the best one; otherwise the effect is removed. |

## Left out

- The physics ray queries are a `SpatialQuery` oracle, with the collision filters built in. The world-matrix transform of hit normals is left out: hits arrive with world-space normals.
- `Vector2.Distance`, `Vector2.Normalize` and `Angle.ToVec` are uninterpreted, because they need square roots and trigonometry. The model does not prove that a normalised vector has unit length. Facts about distance are taken as hypotheses (`NonNegativeDistance`).
- Entity-store lookups are the `Surroundings` fields: absorption components, distance to the listener, and the `ReflectRay` flag through the query. A failed `TryDistance`, which yields 0 in the source, is whatever `distanceToListener` returns.
- The turf, space and roof checks and the transform lookup are flags of `Listener`. The listener entity's identity is its `valid` flag.
- The random jitter is a parameter per direction. Its range (±0.3 and ±1) is not enforced.
- The configuration values (the direction resolution and the reflection count) are constructor parameters. The kernel's `useRangeBudget` default is a parameter.
- Engine plumbing is not modelled: `Initialize`, `Update` and its timer, the event handlers, `CanAudioBePostProcessed`, `CanAudioEcho`, and the effect system's add and remove calls. The decision is an `EffectDecision` value.
- Floating point is modelled as `real`: there is no rounding, NaN or infinity, and counters are unbounded naturals.
- `NormalizeToPercentage` in the acoustic data system requires `maxValue != minValue`, and the echo system's percentage helpers require a non-zero total. The source divides by zero in those cases.
- LinearFalloff: a zero-length segment divides by zero in the source. The model takes the clamped limit (100 for a negative distance, 0 otherwise). At distance 0 the source computes NaN, which the model does not reproduce.
- The echo system computes an average bounce count that it never uses. The model leaves it out.
- The echo system's `NormalizeToPercentage` has no caller. It is modelled only through its lemmas.
- The debug ray drawing (`CastDebugRay` and the `Debug` partial class) is not modelled.
- The chat colour feature, the CVar declarations and the component declarations are not part of this model.
