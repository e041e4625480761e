/** The acoustic aggregator built on the reflective ray kernel. One jittered ray is cast per
    compass direction; each ray bounces up to a cap, stops early when a single segment is long
    enough to count as having escaped into open space or when its summed segments exhaust the
    range budget, and accumulates the absorption of everything it crossed with an inverse-square
    falloff. The per-ray results are averaged, smoothed against the previous pass, scaled by
    absorption, escape and roof penalties, and the resulting magnitude picks a reverb preset. */
module AcousticData {
  import opened Vectors
  import opened Environment
  import opened ReflectiveRay
  import opened Stats
  import opened Presets
  import opened Compass

  /** A segment at least this fraction of the ray's range means the ray escaped. */
  const EscapeDistancePercentage: real := 0.3
  /** The escape factor never drops below this. */
  const MinimumEscapePenalty: real := 0.10
  /** Factor applied when the listener's tile has no roof. */
  const NoRoofPenalty: real := 0.10
  /** Each ray's angle is jittered by a value drawn from [-DirectionRandomOffset, DirectionRandomOffset]. */
  const DirectionRandomOffset: real := 0.3
  /** The clamp of the absorption factor. */
  const AbsorptionMaxClamp: real := 1.3

  /** The reverb thresholds, in ascending order of distance. */
  const AcousticReverbPresets: seq<Threshold> := [
    Threshold(10.0, "SpaceStationCupboard"),
    Threshold(13.0, "DustyRoom"),
    Threshold(15.0, "SpaceStationSmallRoom"),
    Threshold(18.0, "SpaceStationShortPassage"),
    Threshold(23.0, "SpaceStationMediumRoom"),
    Threshold(28.0, "SpaceStationHall"),
    Threshold(35.0, "SpaceStationLargeRoom"),
    Threshold(40.0, "Auditorium"),
    Threshold(45.0, "ConcertHall"),
    Threshold(70.0, "Hangar")
  ]

  /** The first threshold: magnitudes at or below it remove the effect. */
  const MinimumMagnitude: real := AcousticReverbPresets[0].distance
  /** The last threshold, also the range of every ray. */
  const MaximumMagnitude: real := AcousticReverbPresets[|AcousticReverbPresets| - 1].distance

  // ---------------------------------------------------------------------------------------
  // Preset selection

  /** The preset of the first threshold at or above the magnitude, else the largest one. */
  method GetBestReverbPreset(magnitude: real) returns (preset: string)
    ensures preset == AcousticReverbPresets[MatchIndex(AcousticReverbPresets, magnitude)].preset
    ensures magnitude <= MinimumMagnitude ==> preset == "SpaceStationCupboard"
    ensures magnitude > MaximumMagnitude ==> preset == "Hangar"
  {
    preset := BestPreset(AcousticReverbPresets, magnitude);
    if magnitude <= MinimumMagnitude {
      MatchIndexCharacterised(AcousticReverbPresets, magnitude, 0);
    }
    if magnitude > MaximumMagnitude {
      MatchFallback(AcousticReverbPresets, magnitude);
    }
  }

  /** The table is ascending, so a larger magnitude never selects a smaller room. */
  lemma ReverbPresetsAscending(m1: real, m2: real)
    requires m1 <= m2
    ensures Ascending(AcousticReverbPresets)
    ensures MatchIndex(AcousticReverbPresets, m1) <= MatchIndex(AcousticReverbPresets, m2)
    ensures AcousticReverbPresets[MatchIndex(AcousticReverbPresets, m1)].distance
         <= AcousticReverbPresets[MatchIndex(AcousticReverbPresets, m2)].distance
  {
    MatchMonotone(AcousticReverbPresets, m1, m2);
  }

  /** 10 selects the cupboard, 11 the dusty room, 45 the concert hall and 71 the hangar. */
  lemma ReverbPresetExamples()
    ensures AcousticReverbPresets[MatchIndex(AcousticReverbPresets, 10.0)].preset == "SpaceStationCupboard"
    ensures AcousticReverbPresets[MatchIndex(AcousticReverbPresets, 11.0)].preset == "DustyRoom"
    ensures AcousticReverbPresets[MatchIndex(AcousticReverbPresets, 45.0)].preset == "ConcertHall"
    ensures AcousticReverbPresets[MatchIndex(AcousticReverbPresets, 71.0)].preset == "Hangar"
  {
    MatchIndexCharacterised(AcousticReverbPresets, 10.0, 0);
    MatchIndexCharacterised(AcousticReverbPresets, 11.0, 1);
    MatchIndexCharacterised(AcousticReverbPresets, 45.0, 8);
    MatchFallback(AcousticReverbPresets, 71.0);
  }

  // ---------------------------------------------------------------------------------------
  // Normalisation

  /** Where `value` lies between `minValue` and `maxValue`, as a fraction clamped to
      [0, maxClamp]. The range must not be empty (the division would not be finite). */
  function NormalizeToPercentage(value: real, minValue: real, maxValue: real, maxClamp: real): (r: real)
    requires maxValue != minValue && 0.0 <= maxClamp
    ensures 0.0 <= r <= maxClamp
    ensures maxValue > minValue && value <= minValue ==> r == 0.0
    ensures maxValue > minValue && value >= minValue + maxClamp * (maxValue - minValue) ==> r == maxClamp
  {
    var percentage := (value - minValue) / (maxValue - minValue);
    PercentageEnds(value, minValue, maxValue, maxClamp);
    Clamp(percentage, 0.0, maxClamp)
  }

  /** The mirror image of NormalizeToPercentage: 0 maps to the top of the scale, and values at or
      beyond the width of the range map to 0. */
  function InverseNormalizeToPercentage(value: real, minValue: real, maxValue: real, maxClamp: real): (r: real)
    requires maxValue != minValue && 0.0 <= maxClamp
    ensures 0.0 <= r <= maxClamp
    ensures maxValue > minValue && value >= maxValue - minValue ==> r == 0.0
    ensures maxValue > minValue && value <= (1.0 - maxClamp) * (maxValue - minValue) ==> r == maxClamp
  {
    NormalizeToPercentage(maxValue - value, minValue, maxValue, maxClamp)
  }

  lemma PercentageEnds(value: real, minValue: real, maxValue: real, maxClamp: real)
    ensures maxValue > minValue && value <= minValue ==> (value - minValue) / (maxValue - minValue) <= 0.0
    ensures maxValue > minValue && value >= minValue + maxClamp * (maxValue - minValue) ==>
      (value - minValue) / (maxValue - minValue) >= maxClamp
  {
    if maxValue > minValue && value >= minValue + maxClamp * (maxValue - minValue) {
      DivAtLeast(value - minValue, maxValue - minValue, maxClamp);
    }
  }

  lemma DivAtLeast(a: real, b: real, c: real)
    requires b > 0.0 && a >= c * b
    ensures a / b >= c
  {
  }

  lemma DivMonotone(a1: real, a2: real, b: real)
    requires b > 0.0 && a1 <= a2
    ensures a1 / b <= a2 / b
  {
  }

  /** Over a proper range, NormalizeToPercentage is non-decreasing and its inverse non-increasing. */
  lemma {:induction false} NormalizeMonotone(v1: real, v2: real, minValue: real, maxValue: real, maxClamp: real)
    requires maxValue > minValue && 0.0 <= maxClamp && v1 <= v2
    ensures NormalizeToPercentage(v1, minValue, maxValue, maxClamp)
         <= NormalizeToPercentage(v2, minValue, maxValue, maxClamp)
    ensures InverseNormalizeToPercentage(v2, minValue, maxValue, maxClamp)
         <= InverseNormalizeToPercentage(v1, minValue, maxValue, maxClamp)
  {
    DivMonotone(v1 - minValue, v2 - minValue, maxValue - minValue);
    DivMonotone(maxValue - v2 - minValue, maxValue - v1 - minValue, maxValue - minValue);
  }

  // ---------------------------------------------------------------------------------------
  // Absorption

  /** 5 / (5 + d^2) with the distance floored at 1. */
  function InverseSquareFalloff(distance: real): (r: real)
    ensures 0.0 < r <= 5.0 / 6.0
    ensures distance <= 1.0 ==> r == 5.0 / 6.0
  {
    var d := if distance < 1.0 then 1.0 else distance;
    assert d * d >= 1.0 by { assert d * d >= d * 1.0; }
    DivAntitone(5.0, 6.0, 5.0 + d * d);
    5.0 / (5.0 + d * d)
  }

  lemma DivAntitone(c: real, x: real, y: real)
    requires c >= 0.0 && 0.0 < x <= y
    ensures c / y <= c / x
  {
    assert c / y * y == c;
    assert c / x * x == c;
    assert c / x * y >= c / x * x;
  }

  lemma MulMonotone(x: real, y: real, z: real)
    requires x >= 0.0 && y <= z
    ensures x * y <= x * z
  {
  }

  /** The farther an absorbing entity is from the listener, the less it counts. */
  lemma {:induction false} InverseSquareFalloffAntitone(d1: real, d2: real)
    requires d1 <= d2
    ensures InverseSquareFalloff(d2) <= InverseSquareFalloff(d1)
  {
    var a := if d1 < 1.0 then 1.0 else d1;
    var b := if d2 < 1.0 then 1.0 else d2;
    assert 1.0 <= a <= b;
    assert a * a <= a * b <= b * b;
    DivAntitone(5.0, 5.0 + a * a, 5.0 + b * b);
  }

  /** An entity's contribution: its coefficient scaled by the falloff at its distance from the
      listener. It has the coefficient's sign and at most five sixths of its size. */
  function GetAcousticAbsorption(distance: real, comp: AbsorptionData): (r: real)
    ensures comp.absorption >= 0.0 ==> 0.0 <= r <= comp.absorption * (5.0 / 6.0)
    ensures comp.absorption <= 0.0 ==> comp.absorption * (5.0 / 6.0) <= r <= 0.0
    ensures distance <= 1.0 ==> r == comp.absorption * (5.0 / 6.0)
  {
    var falloff := InverseSquareFalloff(distance);
    ScaleByFalloff(comp.absorption, falloff);
    comp.absorption * falloff
  }

  /** A coefficient scaled by a falloff in (0, 5/6] keeps its sign and at most 5/6 of its size. */
  lemma ScaleByFalloff(c: real, falloff: real)
    requires 0.0 < falloff <= 5.0 / 6.0
    ensures c >= 0.0 ==> 0.0 <= c * falloff <= c * (5.0 / 6.0)
    ensures c <= 0.0 ==> c * (5.0 / 6.0) <= c * falloff <= 0.0
  {
    if c >= 0.0 {
      MulBetween(c, falloff, 0.0, 5.0 / 6.0);
    } else {
      MulBetween(-c, falloff, 0.0, 5.0 / 6.0);
      assert (-c) * falloff == -(c * falloff);
    }
  }

  /** What one hit contributes: nothing unless the entity carries acoustic data. */
  function HitAbsorption(hit: RayHit, env: Surroundings): real
  {
    match env.component(hit.entity)
    case None => 0.0
    case Some(comp) => GetAcousticAbsorption(env.distanceToListener(hit.entity), comp)
  }

  /** The per-hit absorption in the given surroundings, as a function value. */
  function Absorber(env: Surroundings): RayHit -> real
  {
    hit => HitAbsorption(hit, env)
  }

  /** `absorb` gives each hit's absorption in `env`. The ray results are specified over such an
      `absorb`, so that their proofs meet the falloff arithmetic only where a hit is gathered. */
  ghost predicate IsAbsorber(absorb: RayHit -> real, env: Surroundings)
  {
    forall hit {:trigger HitAbsorption(hit, env)} :: absorb(hit) == HitAbsorption(hit, env)
  }

  lemma AbsorberIsAbsorber(env: Surroundings)
    ensures IsAbsorber(Absorber(env), env)
  {
  }

  /** The summed contributions of a list of hits, front to back. */
  function AbsorptionOf(hits: seq<RayHit>, absorb: RayHit -> real): real
  {
    if hits == [] then 0.0 else AbsorptionOf(hits[..|hits| - 1], absorb) + absorb(hits[|hits| - 1])
  }

  // ---------------------------------------------------------------------------------------
  // One ray

  /** AcousticRayResults. */
  datatype AcousticRayResults = AcousticRayResults(
    totalAbsorption: real,
    totalBounces: nat,
    totalEscapes: nat,
    totalRange: real)

  const NoResults: AcousticRayResults := AcousticRayResults(0.0, 0, 0, 0.0)

  /** The step's segment was long enough for the ray to count as escaped. */
  predicate Escaped(v: RayView)
  {
    v.currentSegmentDistance >= v.maxRange * EscapeDistancePercentage
  }

  /** The entities a step examines: the path hits, followed by the probe's hit when it bounced. */
  function StepHits(o: StepOutcome): seq<RayHit>
  {
    if o.probe.Hit() then o.path.results + [o.probe.results[0]] else o.path.results
  }

  /** What one step adds to a ray's results. */
  function StepResults(o: StepOutcome, absorb: RayHit -> real): AcousticRayResults
  {
    AcousticRayResults(AbsorptionOf(StepHits(o), absorb), if o.probe.Hit() then 1 else 0,
                       if Escaped(o.state) then 1 else 0, o.state.currentSegmentDistance)
  }

  function Combine(a: AcousticRayResults, b: AcousticRayResults): AcousticRayResults
  {
    AcousticRayResults(a.totalAbsorption + b.totalAbsorption, a.totalBounces + b.totalBounces,
                       a.totalEscapes + b.totalEscapes, a.totalRange + b.totalRange)
  }

  /** The results accumulated over a sequence of steps. */
  function Summarise(steps: seq<StepOutcome>, absorb: RayHit -> real): AcousticRayResults
  {
    if steps == [] then NoResults
    else Combine(Summarise(steps[..|steps| - 1], absorb), StepResults(steps[|steps| - 1], absorb))
  }

  /** Number of steps whose probe hit, i.e. bounces. */
  function BounceCount(steps: seq<StepOutcome>): nat
  {
    if steps == [] then 0
    else BounceCount(steps[..|steps| - 1]) + (if steps[|steps| - 1].probe.Hit() then 1 else 0)
  }

  /** The ray ends after step `o` once it escaped or the summed segments, `total`, reached its range. */
  predicate StopsAfter(o: StepOutcome, total: real)
  {
    Escaped(o.state) || total >= o.state.maxRange
  }

  /** A step function that, like the kernel's, keeps the range and the hit surface offset. */
  ghost predicate KeepsRangeAndOffset(step: RayView -> StepOutcome)
  {
    forall w :: step(w).state.maxRange == w.maxRange && step(w).state.hitSurfaceOffset == w.hitSurfaceOffset
  }

  lemma StepperKeepsRangeAndOffset(query: SpatialQuery, geo: Geometry)
    ensures KeepsRangeAndOffset(Stepper(query, geo))
  {
    forall w
      ensures Stepper(query, geo)(w) == Step(w, query, geo)
    {
    }
  }

  /** The steps one acoustic ray takes from `v`, with `iterations` iterations left and
      `totalRange` already travelled: it stops after a step that escaped or that brought the
      summed segments to the ray's range. */
  function AcousticTrace(v: RayView, step: RayView -> StepOutcome, iterations: int,
                         totalRange: real): seq<StepOutcome>
    decreases if iterations > 0 then iterations else 0
  {
    if iterations <= 0 then []
    else
      var o := step(v);
      var total := totalRange + o.state.currentSegmentDistance;
      if StopsAfter(o, total) then [o]
      else [o] + AcousticTrace(o.state, step, iterations - 1, total)
  }

  lemma SummariseSnoc(steps: seq<StepOutcome>, o: StepOutcome, absorb: RayHit -> real)
    ensures Summarise(steps + [o], absorb) == Combine(Summarise(steps, absorb), StepResults(o, absorb))
  {
    assert (steps + [o])[..|steps|] == steps;
  }

  /** The component-gathering loop over one step's hits: every hit whose entity carries acoustic
      data adds its absorption; the other totals are untouched. */
  method GatherAbsorption(results: AcousticRayResults, hits: seq<RayHit>, env: Surroundings,
                          ghost absorb: RayHit -> real)
    returns (gathered: AcousticRayResults)
    requires IsAbsorber(absorb, env)
    ensures gathered == results.(totalAbsorption := results.totalAbsorption + AbsorptionOf(hits, absorb))
  {
    gathered := results;
    if |hits| > 0 {
      for j := 0 to |hits|
        invariant gathered == results.(totalAbsorption := results.totalAbsorption + AbsorptionOf(hits[..j], absorb))
      {
        assert hits[..j + 1][..j] == hits[..j];
        var comp := env.component(hits[j].entity);
        if comp.Some? {
          gathered := gathered.(totalAbsorption := gathered.totalAbsorption
            + GetAcousticAbsorption(env.distanceToListener(hits[j].entity), comp.value));
        }
        assert absorb(hits[j]) == HitAbsorption(hits[j], env);
      }
      assert hits[..|hits|] == hits;
    }
  }

  /** One iteration's data gathering: advance the ray one segment, add the segment to the
      range, count a bounce when the probe hit, and gather the absorption of every entity the
      segment examined. The escape check is the caller's. */
  method CastAcousticSegment(env: Surroundings, state: ReflectiveRayState, query: SpatialQuery,
                             geo: Geometry, results: AcousticRayResults, ghost absorb: RayHit -> real)
    returns (next: AcousticRayResults, ghost o: StepOutcome)
    requires IsAbsorber(absorb, env)
    modifies state
    ensures o == Step(old(state.View()), query, geo) && state.View() == o.state
    ensures next == Combine(results, StepResults(o, absorb).(totalEscapes := 0))
  {
    var probe, path := CastAndUpdateReflectiveRayStateRef(state, query, geo);
    o := StepOutcome(state.View(), probe, path);
    next := results.(totalRange := results.totalRange + state.currentSegmentDistance);
    var hits := path.results;
    if probe.Hit() {
      hits := hits + [probe.results[0]];
      next := next.(totalBounces := next.totalBounces + 1);
    }
    assert hits == StepHits(o);
    next := GatherAbsorption(next, hits, env, absorb);
  }

  /** One pass of the bounce loop: a segment with its data gathering, then the escape check
      (which counts the escape) and the range check. `stop` says whether the ray ends here. */
  method AcousticPass(env: Surroundings, state: ReflectiveRayState, query: SpatialQuery, geo: Geometry,
                      results: AcousticRayResults, ghost step: RayView -> StepOutcome,
                      ghost absorb: RayHit -> real, ghost start: RayView, ghost steps: seq<StepOutcome>,
                      ghost n: nat)
    returns (next: AcousticRayResults, stop: bool, ghost after: seq<StepOutcome>)
    requires IsKernelStep(step, query, geo) && IsAbsorber(absorb, env)
    requires steps == BounceLoop(start, step, n) && !Stopped(steps)
    requires results == Summarise(steps, absorb) && results.totalRange == SegmentSum(steps)
    requires state.View() == FinalView(start, steps)
    modifies state
    ensures after == BounceLoop(start, step, n + 1)
    ensures next == Summarise(after, absorb) && next.totalRange == SegmentSum(after)
    ensures state.View() == FinalView(start, after)
    ensures stop <==> Stopped(after)
  {
    ghost var o;
    next, o := CastAcousticSegment(env, state, query, geo, results, absorb);
    BounceLoopNext(start, step, n);
    SummariseSnoc(steps, o, absorb);
    after := steps + [o];
    assert after[..|steps|] == steps;
    stop := false;
    if state.currentSegmentDistance >= state.maxRange * EscapeDistancePercentage {
      next := next.(totalEscapes := next.totalEscapes + 1);
      stop := true;
    } else if next.totalRange >= state.maxRange {
      stop := true;
    }
  }

  /** Casts one bouncing ray and accumulates its results: at most maxBounces + 1 segments,
      stopping after a segment that escaped (counted as an escape) or once the summed segments
      reach the ray's range. The results are those of the ray's acoustic trace, and the state is
      left where the trace ends. */
  method CastReflectiveAcousticRay(env: Surroundings, maxBounces: int, state: ReflectiveRayState,
                                   query: SpatialQuery, geo: Geometry, ghost step: RayView -> StepOutcome,
                                   ghost absorb: RayHit -> real)
    returns (results: AcousticRayResults)
    requires IsKernelStep(step, query, geo) && IsAbsorber(absorb, env)
    modifies state
    ensures results == Summarise(BounceLoop(old(state.View()), step, Passes(maxBounces)), absorb)
    ensures state.View() == FinalView(old(state.View()), BounceLoop(old(state.View()), step, Passes(maxBounces)))
  {
    ghost var start := state.View();
    ghost var steps: seq<StepOutcome> := [];
    ghost var passes := Passes(maxBounces);
    results := NoResults;
    ghost var ran: nat := 0;
    for bounce := 0 to Passes(maxBounces)
      invariant ran == bounce
      invariant steps == BounceLoop(start, step, ran) && !Stopped(steps)
      invariant results == Summarise(steps, absorb) && results.totalRange == SegmentSum(steps)
      invariant state.View() == FinalView(start, steps)
    {
      var stop;
      results, stop, steps := AcousticPass(env, state, query, geo, results, step, absorb, start, steps, bounce);
      if stop {
        BounceLoopStable(start, step, bounce + 1, passes);
        ran := passes;
        break;
      }
      ran := bounce + 1;
    }
    assert ran == passes;
  }

  /** The steps the bounce loop has recorded after `passes` passes, built the way the loop builds
      them: each pass appends the step from where the ray stands, and a pass after the ray
      stopped changes nothing. */
  function BounceLoop(v: RayView, step: RayView -> StepOutcome, passes: nat): seq<StepOutcome>
  {
    if passes == 0 then []
    else
      var done := BounceLoop(v, step, passes - 1);
      if Stopped(done) then done else done + [step(FinalView(v, done))]
  }

  /** A pass before the ray stopped appends the step from where the ray stands. */
  lemma BounceLoopNext(v: RayView, step: RayView -> StepOutcome, n: nat)
    requires !Stopped(BounceLoop(v, step, n))
    ensures var done := BounceLoop(v, step, n);
      BounceLoop(v, step, n + 1) == done + [step(FinalView(v, done))]
  {
  }

  /** The recorded steps end with one after which the ray stops. */
  predicate Stopped(done: seq<StepOutcome>)
  {
    done != [] && StopsAfter(done[|done| - 1], SegmentSum(done))
  }

  /** The ray the loop leaves behind keeps the range and the hit surface offset. */
  lemma {:induction false} BounceLoopKeeps(v: RayView, step: RayView -> StepOutcome, n: nat)
    requires KeepsRangeAndOffset(step)
    ensures FinalView(v, BounceLoop(v, step, n)).maxRange == v.maxRange
    ensures FinalView(v, BounceLoop(v, step, n)).hitSurfaceOffset == v.hitSurfaceOffset
  {
    if n > 0 {
      BounceLoopKeeps(v, step, n - 1);
    }
  }

  /** Once stopped, further passes change nothing. */
  lemma {:induction false} BounceLoopStable(v: RayView, step: RayView -> StepOutcome, m: nat, n: nat)
    requires m <= n && Stopped(BounceLoop(v, step, m))
    ensures BounceLoop(v, step, n) == BounceLoop(v, step, m)
    decreases n - m
  {
    if m < n {
      BounceLoopStable(v, step, m, n - 1);
    }
  }

  /** The trace grows at its end: one more iteration appends the step from where the trace
      left the ray, unless the trace already stopped. */
  lemma {:induction false} AcousticTraceSnoc(v: RayView, step: RayView -> StepOutcome, n: nat, totalRange: real)
    requires n >= 1
    ensures var t := AcousticTrace(v, step, n - 1, totalRange);
      AcousticTrace(v, step, n, totalRange)
        == if t != [] && StopsAfter(t[|t| - 1], totalRange + SegmentSum(t)) then t
           else t + [step(FinalView(v, t))]
    decreases n, 1
  {
    var o := step(v);
    var total := totalRange + o.state.currentSegmentDistance;
    if n == 1 || StopsAfter(o, total) {
      SegmentSumCons(o, []);
      assert [o] + [] == [o];
    } else {
      AcousticTraceSnocCons(v, step, n, totalRange);
    }
  }

  /** The inductive case of AcousticTraceSnoc: the first step does not stop the ray, so both
      traces start with it and the rest follows from the shorter trace. */
  lemma {:induction false} AcousticTraceSnocCons(v: RayView, step: RayView -> StepOutcome, n: nat, totalRange: real)
    requires n >= 2 && !StopsAfter(step(v), totalRange + step(v).state.currentSegmentDistance)
    ensures var t := AcousticTrace(v, step, n - 1, totalRange);
      AcousticTrace(v, step, n, totalRange)
        == if t != [] && StopsAfter(t[|t| - 1], totalRange + SegmentSum(t)) then t
           else t + [step(FinalView(v, t))]
    decreases n, 0
  {
    var o := step(v);
    var total := totalRange + o.state.currentSegmentDistance;
    var r := AcousticTrace(o.state, step, n - 2, total);
    var u := AcousticTrace(o.state, step, n - 1, total);
    var t := [o] + r;
    assert AcousticTrace(v, step, n - 1, totalRange) == t;
    assert AcousticTrace(v, step, n, totalRange) == [o] + u;
    AcousticTraceSnoc(o.state, step, n - 1, total);
    SegmentSumCons(o, r);
    assert totalRange + SegmentSum(t) == total + SegmentSum(r);
    var x := step(FinalView(o.state, r));
    if r == [] {
      assert u == [x];
      assert t == [o] && FinalView(v, t) == o.state;
    } else if StopsAfter(r[|r| - 1], total + SegmentSum(r)) {
      assert u == r;
      assert t[|t| - 1] == r[|r| - 1];
    } else {
      assert u == r + [x];
      assert t[|t| - 1] == r[|r| - 1];
      assert FinalView(v, t) == FinalView(o.state, r);
      assert [o] + (r + [x]) == t + [x];
    }
  }

  /** The loop-shaped definition and the recursive one agree. */
  lemma {:induction false} BounceLoopIsAcousticTrace(v: RayView, step: RayView -> StepOutcome, n: nat)
    ensures BounceLoop(v, step, n) == AcousticTrace(v, step, n, 0.0)
  {
    if n > 0 {
      BounceLoopIsAcousticTrace(v, step, n - 1);
      AcousticTraceSnoc(v, step, n, 0.0);
    }
  }

  /** One unfolding of the trace. */
  lemma AcousticTraceUnfold(v: RayView, step: RayView -> StepOutcome, iterations: int, totalRange: real)
    requires iterations > 0
    ensures var o := step(v);
      var total := totalRange + o.state.currentSegmentDistance;
      AcousticTrace(v, step, iterations, totalRange)
        == if Escaped(o.state) || total >= o.state.maxRange then [o]
           else [o] + AcousticTrace(o.state, step, iterations - 1, total)
  {
  }

  /** At most `iterations` steps, and at least one when any are allowed; no step changes the
      range or the hit surface offset. */
  lemma {:induction false} AcousticTraceLength(v: RayView, step: RayView -> StepOutcome,
                                               iterations: int, totalRange: real)
    requires KeepsRangeAndOffset(step)
    ensures var t := AcousticTrace(v, step, iterations, totalRange);
      && (iterations <= 0 ==> t == [])
      && (iterations > 0 ==> 1 <= |t| <= iterations)
      && (forall k :: 0 <= k < |t| ==>
            t[k].state.maxRange == v.maxRange && t[k].state.hitSurfaceOffset == v.hitSurfaceOffset)
    decreases if iterations > 0 then iterations else 0
  {
    if iterations > 0 {
      AcousticTraceUnfold(v, step, iterations, totalRange);
      var o := step(v);
      var total := totalRange + o.state.currentSegmentDistance;
      if !(Escaped(o.state) || total >= o.state.maxRange) {
        var rest := AcousticTrace(o.state, step, iterations - 1, total);
        AcousticTraceLength(o.state, step, iterations - 1, total);
        var t := [o] + rest;
        assert forall k :: 1 <= k < |t| ==> t[k] == rest[k - 1];
      }
    }
  }

  /** The trace's ends: it starts with a step from `v`, and a trace shorter than its allowance
      ended because the ray stopped. */
  lemma {:induction false} AcousticTraceEnds(v: RayView, step: RayView -> StepOutcome,
                                             iterations: int, totalRange: real)
    ensures var t := AcousticTrace(v, step, iterations, totalRange);
      && |t| <= (if iterations > 0 then iterations else 0)
      && (iterations > 0 ==> |t| >= 1 && t[0] == step(v))
      && (0 < |t| < iterations ==> StopsAfter(t[|t| - 1], totalRange + SegmentSum(t)))
    decreases if iterations > 0 then iterations else 0
  {
    if iterations > 0 {
      AcousticTraceUnfold(v, step, iterations, totalRange);
      var o := step(v);
      var total := totalRange + o.state.currentSegmentDistance;
      SegmentSumCons(o, []);
      assert [o] + [] == [o];
      if !StopsAfter(o, total) {
        var rest := AcousticTrace(o.state, step, iterations - 1, total);
        AcousticTraceEnds(o.state, step, iterations - 1, total);
        SegmentSumCons(o, rest);
        if rest != [] {
          assert ([o] + rest)[|rest|] == rest[|rest| - 1];
        }
      }
    }
  }

  /** Each later step of the trace is a step from the state the previous one left. */
  lemma {:induction false} AcousticTraceSuccessor(v: RayView, step: RayView -> StepOutcome,
                                                  iterations: int, totalRange: real, k: nat)
    requires 0 < k < |AcousticTrace(v, step, iterations, totalRange)|
    ensures var t := AcousticTrace(v, step, iterations, totalRange);
      t[k] == step(t[k - 1].state)
    decreases if iterations > 0 then iterations else 0
  {
    AcousticTraceUnfold(v, step, iterations, totalRange);
    var o := step(v);
    var total := totalRange + o.state.currentSegmentDistance;
    var rest := AcousticTrace(o.state, step, iterations - 1, total);
    assert AcousticTrace(v, step, iterations, totalRange) == [o] + rest;
    if k == 1 {
      AcousticTraceEnds(o.state, step, iterations - 1, total);
    } else {
      AcousticTraceSuccessor(o.state, step, iterations - 1, total, k - 1);
    }
  }

  /** The ray stops after no step but the last. */
  lemma {:induction false} AcousticTraceContinues(v: RayView, step: RayView -> StepOutcome,
                                                  iterations: int, totalRange: real, k: nat)
    requires k < |AcousticTrace(v, step, iterations, totalRange)| - 1
    ensures var t := AcousticTrace(v, step, iterations, totalRange);
      !StopsAfter(t[k], totalRange + SegmentSum(t[..k + 1]))
    decreases if iterations > 0 then iterations else 0
  {
    AcousticTraceUnfold(v, step, iterations, totalRange);
    var o := step(v);
    var total := totalRange + o.state.currentSegmentDistance;
    var rest := AcousticTrace(o.state, step, iterations - 1, total);
    var t := AcousticTrace(v, step, iterations, totalRange);
    assert t == [o] + rest;
    if k == 0 {
      assert t[..1] == [o] + [];
      SegmentSumCons(o, []);
    } else {
      AcousticTraceContinues(o.state, step, iterations - 1, total, k - 1);
      assert t[..k + 1] == [o] + rest[..k];
      SegmentSumCons(o, rest[..k]);
    }
  }

  /** The escape count over steps none of which but possibly the last escaped: one exactly when
      the last step escaped. */
  lemma {:induction false} SummariseEscapes(steps: seq<StepOutcome>, absorb: RayHit -> real)
    requires forall k :: 0 <= k < |steps| - 1 ==> !Escaped(steps[k].state)
    ensures Summarise(steps, absorb).totalEscapes == if steps != [] && Escaped(steps[|steps| - 1].state) then 1 else 0
  {
    if steps != [] {
      var init := steps[..|steps| - 1];
      if init != [] {
        assert init[..|init| - 1] == steps[..|init| - 1];
        assert !Escaped(init[|init| - 1].state);
        SummariseEscapes(init, absorb);
      }
    }
  }

  /** Range and bounce totals are the summed segments and the count of probe hits. */
  lemma {:induction false} SummariseTotals(steps: seq<StepOutcome>, absorb: RayHit -> real)
    ensures Summarise(steps, absorb).totalRange == SegmentSum(steps)
    ensures Summarise(steps, absorb).totalBounces == BounceCount(steps) <= |steps|
  {
    if steps != [] {
      SummariseTotals(steps[..|steps| - 1], absorb);
    }
  }

  /** What one ray reports: at most maxBounces + 1 steps; TotalEscapes is 0 or 1, and 1 exactly
      when the last step escaped (which is what ended the ray); TotalRange is the sum of the
      segments, short of the range before the last step; TotalBounces counts the probe hits. */
  lemma AcousticRayResultsCharacterised(v: RayView, step: RayView -> StepOutcome,
                                        maxBounces: int, absorb: RayHit -> real)
    requires KeepsRangeAndOffset(step)
    ensures var t := BounceLoop(v, step, Passes(maxBounces));
      var r := Summarise(t, absorb);
      && |t| <= Passes(maxBounces)
      && r.totalEscapes <= 1
      && (r.totalEscapes == 1 <==> t != [] && Escaped(t[|t| - 1].state))
      && r.totalRange == SegmentSum(t)
      && (|t| >= 2 ==> SegmentSum(t[..|t| - 1]) < v.maxRange)
      && r.totalBounces == BounceCount(t) <= |t|
  {
    var passes := Passes(maxBounces);
    BounceLoopIsAcousticTrace(v, step, passes);
    var t := AcousticTrace(v, step, passes, 0.0);
    AcousticTraceLength(v, step, passes, 0.0);
    forall k | 0 <= k < |t| - 1
      ensures !Escaped(t[k].state)
    {
      AcousticTraceContinues(v, step, passes, 0.0, k);
    }
    if |t| >= 2 {
      AcousticTraceContinues(v, step, passes, 0.0, |t| - 2);
    }
    SummariseEscapes(t, absorb);
    SummariseTotals(t, absorb);
  }

  /** A ray whose first segment already escapes reports exactly that one segment, one escape,
      and a bounce only if its probe hit. */
  lemma FirstSegmentEscapes(v: RayView, step: RayView -> StepOutcome, maxBounces: int, absorb: RayHit -> real)
    requires maxBounces >= 0
    requires Escaped(step(v).state)
    ensures BounceLoop(v, step, Passes(maxBounces)) == [step(v)]
    ensures Summarise(BounceLoop(v, step, Passes(maxBounces)), absorb)
         == AcousticRayResults(AbsorptionOf(StepHits(step(v)), absorb),
                               if step(v).probe.Hit() then 1 else 0, 1,
                               step(v).state.currentSegmentDistance)
  {
    var o := step(v);
    assert BounceLoop(v, step, 1) == [o] by {
      assert BounceLoop(v, step, 0) == [];
    }
    SegmentSumCons(o, []);
    assert [o] + [] == [o];
    BounceLoopStable(v, step, 1, Passes(maxBounces));
    assert [o][..0] == [];
  }

  // ---------------------------------------------------------------------------------------
  // Many rays

  /** The reset before each ray: back at the origin, heading along `direction`, with the full
      range ahead. The segment length and the hit normal are left over from the previous ray. */
  function ResetForRay(v: RayView, origin: Vec2, direction: Vec2): RayView
  {
    v.(currentPos := origin, oldPos := origin, direction := direction,
       translation := Scale(direction, v.maxRange), probeTranslation := Scale(direction, v.maxRange),
       remainingDistance := v.maxRange)
  }

  /** The direction of each ray: its cast angle turned by its jitter, as a unit vector. */
  function JitteredDirections(dirs: seq<real>, jitters: seq<real>, geo: Geometry): seq<Vec2>
    requires |jitters| == |dirs|
  {
    seq(|dirs|, i requires 0 <= i < |dirs| => geo.angleToVec(dirs[i] + jitters[i]))
  }

  /** The results of the first `n` rays, one per direction, cast from `origin` with `step` and
      up to `passes` passes each, reusing one state; and the state they leave behind. */
  function ManyRays(v: RayView, origin: Vec2, directions: seq<Vec2>, n: nat, step: RayView -> StepOutcome,
                    passes: nat, absorb: RayHit -> real): (seq<AcousticRayResults>, RayView)
    requires n <= |directions|
  {
    if n == 0 then ([], v)
    else
      var previous := ManyRays(v, origin, directions, n - 1, step, passes, absorb);
      var start := ResetForRay(previous.1, origin, directions[n - 1]);
      var t := BounceLoop(start, step, passes);
      (previous.0 + [Summarise(t, absorb)], FinalView(start, t))
  }

  /** The reset at the top of each ray. */
  method ResetState(state: ReflectiveRayState, originCoords: Vec2, direction: Vec2)
    modifies state
    ensures state.View() == ResetForRay(old(state.View()), originCoords, direction)
  {
    state.currentPos := originCoords;
    state.oldPos := originCoords;
    state.direction := direction;
    state.translation := Scale(state.direction, state.maxRange);
    state.probeTranslation := state.translation;
    state.remainingDistance := state.maxRange;
  }

  method CastManyReflectiveAcousticRays(env: Surroundings, originCoords: Vec2, maxBounces: int,
                                        castDirections: seq<real>, jitters: seq<real>,
                                        state: ReflectiveRayState, query: SpatialQuery, geo: Geometry,
                                        ghost step: RayView -> StepOutcome, ghost absorb: RayHit -> real)
    returns (acousticResults: seq<AcousticRayResults>)
    requires |jitters| == |castDirections| && IsKernelStep(step, query, geo) && IsAbsorber(absorb, env)
    modifies state
    ensures (acousticResults, state.View())
         == ManyRays(old(state.View()), originCoords, JitteredDirections(castDirections, jitters, geo),
                     |castDirections|, step, Passes(maxBounces), absorb)
  {
    ghost var start := state.View();
    ghost var directions := JitteredDirections(castDirections, jitters, geo);
    acousticResults := [];
    for i := 0 to |castDirections|
      invariant (acousticResults, state.View())
             == ManyRays(start, originCoords, directions, i, step, Passes(maxBounces), absorb)
    {
      ghost var before := state.View();
      var offsetDirection := castDirections[i] + jitters[i];
      ResetState(state, originCoords, geo.angleToVec(offsetDirection));
      ghost var rayStart := state.View();
      assert rayStart == ResetForRay(before, originCoords, directions[i]);
      var results := CastReflectiveAcousticRay(env, maxBounces, state, query, geo, step, absorb);
      ghost var t := BounceLoop(rayStart, step, Passes(maxBounces));
      assert results == Summarise(t, absorb) && state.View() == FinalView(rayStart, t);
      acousticResults := acousticResults + [results];
    }
  }

  /** One result per ray cast. */
  lemma {:induction false} ManyRaysCount(v: RayView, origin: Vec2, directions: seq<Vec2>, n: nat,
                                         step: RayView -> StepOutcome, passes: nat, absorb: RayHit -> real)
    requires n <= |directions|
    ensures |ManyRays(v, origin, directions, n, step, passes, absorb).0| == n
  {
    if n > 0 {
      ManyRaysCount(v, origin, directions, n - 1, step, passes, absorb);
    }
  }

  /** Casting many rays leaves the range and the hit surface offset as they were. */
  lemma {:induction false} ManyRaysPreserves(v: RayView, origin: Vec2, directions: seq<Vec2>, n: nat,
                                             step: RayView -> StepOutcome, passes: nat, absorb: RayHit -> real)
    requires n <= |directions| && KeepsRangeAndOffset(step)
    ensures ManyRays(v, origin, directions, n, step, passes, absorb).1.maxRange == v.maxRange
    ensures ManyRays(v, origin, directions, n, step, passes, absorb).1.hitSurfaceOffset == v.hitSurfaceOffset
  {
    if n > 0 {
      ManyRaysPreserves(v, origin, directions, n - 1, step, passes, absorb);
      var previous := ManyRays(v, origin, directions, n - 1, step, passes, absorb);
      BounceLoopKeeps(ResetForRay(previous.1, origin, directions[n - 1]), step, passes);
    }
  }

  /** A fresh ray from `origin` along `direction`, as if no ray had been cast before it. */
  function FreshRay(origin: Vec2, direction: Vec2, maxRange: real, hitSurfaceOffset: real): RayView
  {
    RayView(origin, origin, direction, maxRange, 0.0, maxRange, Scale(direction, maxRange),
            Scale(direction, maxRange), None, hitSurfaceOffset)
  }

  /** Two states that differ at most in the leftover segment length and hit normal. */
  predicate SameRay(a: RayView, b: RayView)
  {
    a.(currentSegmentDistance := 0.0, hitSurfaceNormal := None)
      == b.(currentSegmentDistance := 0.0, hitSurfaceNormal := None)
  }

  /** Two steps that probed and examined the same things and left the same ray behind. */
  predicate StepsAgree(x: StepOutcome, y: StepOutcome)
  {
    && x.probe == y.probe && x.path == y.path
    && x.state.currentSegmentDistance == y.state.currentSegmentDistance
    && SameRay(x.state, y.state)
  }

  /** A step function that never reads the leftover segment length or hit normal. */
  ghost predicate IgnoresLeftovers(step: RayView -> StepOutcome)
  {
    forall a, b {:trigger step(a), step(b)} :: SameRay(a, b) ==> StepsAgree(step(a), step(b))
  }

  /** The kernel's step never reads the leftover segment length or hit normal. */
  lemma StepIgnoresLeftovers(a: RayView, b: RayView, query: SpatialQuery, geo: Geometry)
    requires SameRay(a, b)
    ensures StepsAgree(Step(a, query, geo), Step(b, query, geo))
  {
    assert a.currentPos == b.currentPos && a.oldPos == b.oldPos && a.direction == b.direction;
    assert a.translation == b.translation && a.probeTranslation == b.probeTranslation;
    assert a.maxRange == b.maxRange && a.remainingDistance == b.remainingDistance;
    assert a.hitSurfaceOffset == b.hitSurfaceOffset;
  }

  lemma StepperIgnoresLeftovers(query: SpatialQuery, geo: Geometry)
    ensures IgnoresLeftovers(Stepper(query, geo))
  {
    forall a, b | SameRay(a, b)
      ensures StepsAgree(Stepper(query, geo)(a), Stepper(query, geo)(b))
    {
      StepIgnoresLeftovers(a, b, query, geo);
    }
  }

  /** Two rays' recorded steps that agree: as many steps, the same totals, both stopped or both
      not, and the same ray left behind. */
  predicate TracesAgree(a: RayView, b: RayView, ta: seq<StepOutcome>, tb: seq<StepOutcome>, absorb: RayHit -> real)
  {
    && |ta| == |tb| && Summarise(ta, absorb) == Summarise(tb, absorb)
    && SegmentSum(ta) == SegmentSum(tb) && (Stopped(ta) <==> Stopped(tb))
    && SameRay(FinalView(a, ta), FinalView(b, tb))
  }

  /** Appending agreeing steps to agreeing traces keeps them agreeing. */
  lemma ExtendAgreeing(a: RayView, b: RayView, ta: seq<StepOutcome>, tb: seq<StepOutcome>,
                       oa: StepOutcome, ob: StepOutcome, absorb: RayHit -> real)
    requires TracesAgree(a, b, ta, tb, absorb) && StepsAgree(oa, ob)
    ensures TracesAgree(a, b, ta + [oa], tb + [ob], absorb)
  {
    assert StepHits(oa) == StepHits(ob);
    assert (ta + [oa])[..|ta|] == ta;
    assert (tb + [ob])[..|tb|] == tb;
  }

  /** Hence a whole ray from either state takes the same number of steps, reports the same
      results and ends in the same ray. */
  lemma {:induction false} BounceLoopIgnoresLeftovers(a: RayView, b: RayView, step: RayView -> StepOutcome,
                                                      n: nat, absorb: RayHit -> real)
    requires SameRay(a, b) && IgnoresLeftovers(step)
    ensures TracesAgree(a, b, BounceLoop(a, step, n), BounceLoop(b, step, n), absorb)
  {
    if n > 0 {
      BounceLoopIgnoresLeftovers(a, b, step, n - 1, absorb);
      var da, db := BounceLoop(a, step, n - 1), BounceLoop(b, step, n - 1);
      if !Stopped(da) {
        ExtendAgreeing(a, b, da, db, step(FinalView(a, da)), step(FinalView(b, db)), absorb);
      }
    }
  }

  /** Each result of many rays is what a fresh ray along that direction reports: reusing one
      state for every ray changes nothing. */
  lemma {:induction false} ManyRaysAreIndependent(v: RayView, origin: Vec2, directions: seq<Vec2>, n: nat,
                                                  step: RayView -> StepOutcome, passes: nat,
                                                  absorb: RayHit -> real, k: nat)
    requires k < n <= |directions|
    requires KeepsRangeAndOffset(step) && IgnoresLeftovers(step)
    ensures |ManyRays(v, origin, directions, n, step, passes, absorb).0| == n
    ensures ManyRays(v, origin, directions, n, step, passes, absorb).0[k]
         == Summarise(BounceLoop(FreshRay(origin, directions[k], v.maxRange, v.hitSurfaceOffset), step, passes), absorb)
  {
    ManyRaysCount(v, origin, directions, n - 1, step, passes, absorb);
    var previous := ManyRays(v, origin, directions, n - 1, step, passes, absorb);
    var start := ResetForRay(previous.1, origin, directions[n - 1]);
    var last := Summarise(BounceLoop(start, step, passes), absorb);
    assert ManyRays(v, origin, directions, n, step, passes, absorb).0 == previous.0 + [last];
    if k < n - 1 {
      ManyRaysAreIndependent(v, origin, directions, n - 1, step, passes, absorb, k);
      assert (previous.0 + [last])[k] == previous.0[k];
    } else {
      ManyRaysPreserves(v, origin, directions, n - 1, step, passes, absorb);
      var newRay := FreshRay(origin, directions[k], v.maxRange, v.hitSurfaceOffset);
      BounceLoopIgnoresLeftovers(start, newRay, step, passes, absorb);
      assert (previous.0 + [last])[k] == last;
    }
  }

  /** The sampled rays with the kernel's step: one result per direction, each the result of a
      fresh ray along its jittered direction. */
  lemma SampledRaysAreIndependent(v: RayView, origin: Vec2, maxBounces: int, dirs: seq<real>,
                                  jitters: seq<real>, query: SpatialQuery, geo: Geometry,
                                  absorb: RayHit -> real, k: nat)
    requires |jitters| == |dirs| && k < |dirs|
    ensures var rs := ManyRays(v, origin, JitteredDirections(dirs, jitters, geo), |dirs|, Stepper(query, geo),
                               Passes(maxBounces), absorb).0;
      && |rs| == |dirs|
      && rs[k] == Summarise(BounceLoop(FreshRay(origin, geo.angleToVec(dirs[k] + jitters[k]), v.maxRange,
                                                v.hitSurfaceOffset), Stepper(query, geo), Passes(maxBounces)), absorb)
  {
    var directions := JitteredDirections(dirs, jitters, geo);
    assert directions[k] == geo.angleToVec(dirs[k] + jitters[k]);
    StepperKeepsRangeAndOffset(query, geo);
    StepperIgnoresLeftovers(query, geo);
    ManyRaysAreIndependent(v, origin, directions, |dirs|, Stepper(query, geo), Passes(maxBounces), absorb, k);
  }

  // ---------------------------------------------------------------------------------------
  // Sampling the environment

  /** What a sampling pass yields: nothing when the listener is invalid, has no transform, is
      not on a resolvable tile or is in space, or when there are no directions; otherwise one
      result per direction from a state created at the listener with a zero direction. */
  function SampleEnvironment(listener: Listener, maxRange: real, maxBounces: int, dirs: seq<real>,
                             jitters: seq<real>, query: SpatialQuery, geo: Geometry,
                             env: Surroundings): Option<seq<AcousticRayResults>>
    requires |jitters| == |dirs|
  {
    if !listener.CanSample() || dirs == [] then None
    else Some(ManyRays(InitialView(listener.position, Zero, maxRange), listener.position,
                       JitteredDirections(dirs, jitters, geo), |dirs|, Stepper(query, geo), Passes(maxBounces),
                       Absorber(env)).0)
  }

  method TryCastAndGetEnvironmentAcousticData(listener: Listener, maxRange: real, maxBounces: int,
                                              castDirections: seq<real>, jitters: seq<real>,
                                              query: SpatialQuery, geo: Geometry, env: Surroundings)
    returns (ok: bool, acousticResults: seq<AcousticRayResults>)
    requires |jitters| == |castDirections|
    ensures ok <==> listener.CanSample() && |castDirections| > 0
    ensures ok ==>
      Some(acousticResults) == SampleEnvironment(listener, maxRange, maxBounces, castDirections, jitters, query, geo, env)
    ensures ok ==> |acousticResults| == |castDirections|
    ensures !ok ==> acousticResults == []
  {
    acousticResults := [];
    if !listener.valid || !listener.hasTransform {
      return false, acousticResults;
    }
    if !listener.tileResolved || listener.onSpaceTile {
      return false, acousticResults;
    }
    var state := new ReflectiveRayState(listener.position, Zero, maxRange);
    StepperIsKernelStep(query, geo);
    AbsorberIsAbsorber(env);
    acousticResults := CastManyReflectiveAcousticRays(env, listener.position, maxBounces, castDirections,
                                                      jitters, state, query, geo, Stepper(query, geo),
                                                      Absorber(env));
    ManyRaysCount(InitialView(listener.position, Zero, maxRange), listener.position,
                  JitteredDirections(castDirections, jitters, geo), |castDirections|, Stepper(query, geo),
                  Passes(maxBounces), Absorber(env));
    if |acousticResults| == 0 {
      return false, acousticResults;
    }
    return true, acousticResults;
  }

  // ---------------------------------------------------------------------------------------
  // Amplitude

  function Ranges(rs: seq<AcousticRayResults>): seq<real>
  {
    seq(|rs|, i requires 0 <= i < |rs| => rs[i].totalRange)
  }

  function Absorptions(rs: seq<AcousticRayResults>): seq<real>
  {
    seq(|rs|, i requires 0 <= i < |rs| => rs[i].totalAbsorption)
  }

  /** The summed escape counts of all rays. */
  function EscapeCount(rs: seq<AcousticRayResults>): nat
  {
    if rs == [] then 0 else EscapeCount(rs[..|rs| - 1]) + rs[|rs| - 1].totalEscapes
  }

  /** Energy eaten by absorbing surroundings: the inverse percentage of the average absorption
      over 0..100, up to 1.3. */
  function AbsorptionFactor(avgAbsorption: real): real
  {
    InverseNormalizeToPercentage(avgAbsorption, 0.0, 100.0, AbsorptionMaxClamp)
  }

  /** The absorption factor lies in 0..1.3: nothing is left of a fully absorbing average, at
      least everything of a non-absorbing one, and the clamp is reached at -30. */
  lemma AbsorptionFactorRange(avgAbsorption: real)
    ensures 0.0 <= AbsorptionFactor(avgAbsorption) <= AbsorptionMaxClamp
    ensures avgAbsorption >= 100.0 ==> AbsorptionFactor(avgAbsorption) == 0.0
    ensures avgAbsorption <= 0.0 ==> AbsorptionFactor(avgAbsorption) >= 1.0
    ensures avgAbsorption <= -30.0 ==> AbsorptionFactor(avgAbsorption) == AbsorptionMaxClamp
  {
    if avgAbsorption <= 0.0 {
      NormalizeMonotone(avgAbsorption, 0.0, 0.0, 100.0, AbsorptionMaxClamp);
      assert InverseNormalizeToPercentage(0.0, 0.0, 100.0, AbsorptionMaxClamp) == 1.0;
    }
  }

  /** The escape penalty: the inverse share of escaped rays, never below MinimumEscapePenalty. */
  function EscapeFactor(escaped: nat, totalRays: nat): real
    requires totalRays > 0
  {
    Max(InverseNormalizeToPercentage(escaped as real, 0.0, totalRays as real, 1.0), MinimumEscapePenalty)
  }

  /** The escape factor lies in MinimumEscapePenalty..1: no escapes keep everything, and all
      rays escaping leave only the minimum. */
  lemma EscapeFactorRange(escaped: nat, totalRays: nat)
    requires totalRays > 0
    ensures MinimumEscapePenalty <= EscapeFactor(escaped, totalRays) <= 1.0
    ensures escaped == 0 ==> EscapeFactor(escaped, totalRays) == 1.0
    ensures escaped >= totalRays ==> EscapeFactor(escaped, totalRays) == MinimumEscapePenalty
  {
  }

  /** The amplitude of a pass from the smoothed average ray length: scaled by the absorption
      factor and the escape factor, and by the roof penalty when the listener is unroofed. */
  function Amplitude(smoothed: real, absorption: real, escape: real, unroofed: bool): real
  {
    RoofPenalty((smoothed * absorption) * escape, unroofed)
  }

  /** The roof penalty: an unroofed listener keeps a tenth of the amplitude. */
  function RoofPenalty(x: real, unroofed: bool): real
  {
    if unroofed then x * NoRoofPenalty else x
  }

  /** With factors in their ranges, the amplitude of a non-negative length is at most 1.3 times
      it. */
  lemma AmplitudeWithinClamp(smoothed: real, a: real, e: real, unroofed: bool)
    requires 0.0 <= a <= AbsorptionMaxClamp && MinimumEscapePenalty <= e <= 1.0 && smoothed >= 0.0
    ensures 0.0 <= Amplitude(smoothed, a, e, unroofed) <= smoothed * AbsorptionMaxClamp
  {
    ScaledBounds(smoothed, a, e);
    RoofPenaltyBounds((smoothed * a) * e, smoothed * AbsorptionMaxClamp, unroofed);
  }

  /** Without a roof the amplitude is at most a tenth of that. */
  lemma AmplitudeUnroofed(smoothed: real, a: real, e: real)
    requires 0.0 <= a <= AbsorptionMaxClamp && MinimumEscapePenalty <= e <= 1.0 && smoothed >= 0.0
    ensures Amplitude(smoothed, a, e, true) <= smoothed * AbsorptionMaxClamp * NoRoofPenalty
  {
    ScaledBounds(smoothed, a, e);
    RoofPenaltyBounds((smoothed * a) * e, smoothed * AbsorptionMaxClamp, true);
  }

  /** A zero absorption factor (fully absorbing surroundings) silences the pass. */
  lemma AmplitudeSilenced(smoothed: real, e: real, unroofed: bool)
    ensures Amplitude(smoothed, 0.0, e, unroofed) == 0.0
  {
  }

  /** With an absorption factor of at least one (nothing absorbed), no escape penalty and a roof
      overhead, the amplitude keeps at least the length. */
  lemma AmplitudeKeepsLength(smoothed: real, a: real)
    requires 1.0 <= a <= AbsorptionMaxClamp && smoothed >= 0.0
    ensures Amplitude(smoothed, a, 1.0, false) >= smoothed
  {
    ScaledBounds(smoothed, a, 1.0);
  }

  /** Scaling a length by the absorption factor and then the escape factor keeps it between zero
      and 1.3 times itself; an absorption factor of zero silences it, and factors of at least one
      and exactly one keep at least the length. */
  lemma ScaledBounds(s: real, a: real, e: real)
    requires 0.0 <= a <= AbsorptionMaxClamp && MinimumEscapePenalty <= e <= 1.0
    ensures s >= 0.0 ==> 0.0 <= (s * a) * e <= s * AbsorptionMaxClamp
    ensures a == 0.0 ==> (s * a) * e == 0.0
    ensures s >= 0.0 && a >= 1.0 && e == 1.0 ==> (s * a) * e >= s
  {
    var sa := s * a;
    if s >= 0.0 {
      MulBetween(s, a, 0.0, AbsorptionMaxClamp);
      MulBetween(sa, e, 0.0, 1.0);
      assert 0.0 <= sa * e <= sa <= s * AbsorptionMaxClamp;
      if a >= 1.0 {
        MulBetween(s, a, 1.0, AbsorptionMaxClamp);
      }
    }
  }

  /** The roof penalty keeps a length between zero and its bound, scaled down alike. */
  lemma RoofPenaltyBounds(x: real, top: real, unroofed: bool)
    ensures 0.0 <= x <= top ==> 0.0 <= RoofPenalty(x, unroofed) <= top
    ensures 0.0 <= x <= top && unroofed ==> RoofPenalty(x, unroofed) <= top * NoRoofPenalty
  {
    if 0.0 <= x <= top && unroofed {
      MulBetween(NoRoofPenalty, x, 0.0, top);
      assert top * NoRoofPenalty <= top;
    }
  }

  lemma MulBetween(x: real, y: real, lo: real, hi: real)
    requires x >= 0.0 && lo <= y <= hi
    ensures x * lo <= x * y <= x * hi
  {
    MulMonotone(x, lo, y);
    MulMonotone(x, y, hi);
  }

  /** The per-listener aggregator: the configuration it was set up with and the smoothed average
      ray length of the previous pass. */
  class AcousticDataSystem {
    var prevAvgMagnitude: real
    var acousticMaxReflections: int
    var calculatedDirections: seq<real>

    /** The configuration as read at start-up: the high-resolution setting selects the
        directions, the reflection count caps the bounces. */
    constructor (lib: CompassLibrary, highResolution: bool, reflectionCount: int)
      ensures prevAvgMagnitude == 0.0 && acousticMaxReflections == reflectionCount
      ensures !highResolution ==>
        calculatedDirections == [lib.toAngle(North), lib.toAngle(West), lib.toAngle(South), lib.toAngle(East)]
      ensures highResolution ==> |calculatedDirections| == |lib.allDirections|
      ensures highResolution ==> forall i :: 0 <= i < |calculatedDirections| ==>
        calculatedDirections[i] == lib.toAngle(lib.allDirections[i])
    {
      var directions := GetEffectiveDirections(highResolution, lib);
      prevAvgMagnitude := 0.0;
      acousticMaxReflections := reflectionCount;
      calculatedDirections := directions;
    }

    /** Average the ray results, smooth the average ray length against the previous pass (and
        remember it), and scale it by the absorption, escape and roof penalties. */
    method CalculateAmplitude(acousticResults: seq<AcousticRayResults>, unroofed: bool)
      returns (amplitude: real)
      requires |acousticResults| > 0
      modifies this
      ensures prevAvgMagnitude == SmoothMagnitude(old(prevAvgMagnitude), Average(Ranges(acousticResults)))
      ensures amplitude == Amplitude(prevAvgMagnitude, AbsorptionFactor(Average(Absorptions(acousticResults))),
                                     EscapeFactor(EscapeCount(acousticResults), |acousticResults|), unroofed)
      ensures acousticMaxReflections == old(acousticMaxReflections)
      ensures calculatedDirections == old(calculatedDirections)
    {
      var totalRays := |acousticResults|;
      var avgMagnitude := Average(Ranges(acousticResults));
      var avgAbsorption := Average(Absorptions(acousticResults));
      var escaped := EscapeCount(acousticResults);

      if prevAvgMagnitude > FloatEpsilon {
        avgMagnitude := Lerp(prevAvgMagnitude, avgMagnitude, SmoothingBlend);
      }
      prevAvgMagnitude := avgMagnitude;

      var absorption := AbsorptionFactor(avgAbsorption);
      var escape := EscapeFactor(escaped, totalRays);
      amplitude := Amplitude(avgMagnitude, absorption, escape, unroofed);
    }

    /** One pass for one sound: sample the environment from the listener, compute the amplitude
        when the sample has data (the magnitude stays 0 otherwise), and apply the best preset
        when the magnitude exceeds the smallest threshold, removing the effect otherwise. */
    method ProcessAcoustics(listener: Listener, jitters: seq<real>, query: SpatialQuery, geo: Geometry,
                            env: Surroundings)
      returns (decision: EffectDecision, ghost magnitude: real)
      requires |jitters| == |calculatedDirections|
      modifies this
      ensures decision == Decide(AcousticReverbPresets, magnitude)
      ensures decision.Apply? <==> magnitude > MinimumMagnitude
      ensures var sample := SampleEnvironment(listener, MaximumMagnitude, old(acousticMaxReflections),
                                              old(calculatedDirections), jitters, query, geo, env);
        && (sample.None? ==> magnitude == 0.0 && decision == Remove && prevAvgMagnitude == old(prevAvgMagnitude))
        && (sample.Some? ==>
              |sample.value| > 0
              && prevAvgMagnitude == SmoothMagnitude(old(prevAvgMagnitude), Average(Ranges(sample.value)))
              && magnitude == Amplitude(prevAvgMagnitude, AbsorptionFactor(Average(Absorptions(sample.value))),
                                        EscapeFactor(EscapeCount(sample.value), |sample.value|), listener.unroofed))
      ensures acousticMaxReflections == old(acousticMaxReflections)
      ensures calculatedDirections == old(calculatedDirections)
    {
      var m := 0.0;
      var ok, acousticResults := TryCastAndGetEnvironmentAcousticData(
        listener, MaximumMagnitude, acousticMaxReflections, calculatedDirections, jitters, query, geo, env);
      if ok {
        m := CalculateAmplitude(acousticResults, listener.unroofed);
      }
      magnitude := m;

      if m > MinimumMagnitude {
        var bestPreset := GetBestReverbPreset(m);
        decision := Apply(bestPreset);
      } else {
        decision := Remove;
      }
    }
  }
}
