/** The older acoustic estimator, AreaEchoSystem. One jittered ray per compass direction is cast
    from the listener with a step record of its own. Each iteration probes for the nearest
    reflective wall, moves to it and bounces off it (or, when nothing is hit, moves forward by its
    last segment), and adds the absorption of everything it examined, weighed by a linear
    distance factor. A ray ends when one segment exceeds 45% of its range (an escape) or when its
    remaining budget is used up. The per-ray totals are averaged, smoothed against the previous
    pass, scaled by floored inverse percentages of absorption and escapes and by the roof factor,
    and the magnitude picks an echo preset. */
module AudioEcho {
  import opened Vectors
  import opened Environment
  import opened Stats
  import opened Presets
  import opened Compass

  /** The echo thresholds, in ascending order of distance. */
  const DistancePresets: seq<Threshold> := [
    Threshold(18.0, "Hallway"),
    Threshold(30.0, "Auditorium"),
    Threshold(45.0, "ConcertHall"),
    Threshold(50.0, "Hangar")
  ]

  /** The first threshold: magnitudes at or below it remove the effect. */
  const MinimumMagnitude: real := DistancePresets[0].distance
  /** The last threshold, also the range and the probe length of every ray. */
  const MaximumMagnitude: real := DistancePresets[|DistancePresets| - 1].distance

  /** A segment longer than this fraction of the ray's range means the ray escaped. */
  const EscapeFraction: real := 0.45
  /** Neither percentage helper returns less than this. */
  const PercentageFloor: real := 0.01
  /** How far a bounce steps off the wall along its normal. */
  const ReflectOffset: real := 0.05
  /** The total both percentages of the aggregation are taken of. */
  const PercentageTotal: real := 100.0
  /** The upper clamp of the linear distance factor. */
  const FalloffCap: real := 100.0
  /** Factor applied when the listener's tile has no roof. */
  const UnroofedFactor: real := 0.3

  // ---------------------------------------------------------------------------------------
  // Preset selection

  /** The preset of the first threshold at or above the magnitude, else the largest one. */
  method GetBestPreset(magnitude: real) returns (preset: string)
    ensures preset == DistancePresets[MatchIndex(DistancePresets, magnitude)].preset
    ensures magnitude <= MinimumMagnitude ==> preset == "Hallway"
    ensures magnitude > MaximumMagnitude ==> preset == "Hangar"
  {
    preset := BestPreset(DistancePresets, magnitude);
    if magnitude <= MinimumMagnitude {
      MatchIndexCharacterised(DistancePresets, magnitude, 0);
    }
    if magnitude > MaximumMagnitude {
      MatchFallback(DistancePresets, magnitude);
    }
  }

  /** The table is ascending, so a larger magnitude never selects a smaller room. */
  lemma DistancePresetsAscending(m1: real, m2: real)
    requires m1 <= m2
    ensures Ascending(DistancePresets)
    ensures MatchIndex(DistancePresets, m1) <= MatchIndex(DistancePresets, m2)
    ensures DistancePresets[MatchIndex(DistancePresets, m1)].distance
         <= DistancePresets[MatchIndex(DistancePresets, m2)].distance
  {
    MatchMonotone(DistancePresets, m1, m2);
  }

  /** 18 selects the hallway, 19 the auditorium and 60 the hangar. */
  lemma DistancePresetExamples()
    ensures DistancePresets[MatchIndex(DistancePresets, 18.0)].preset == "Hallway"
    ensures DistancePresets[MatchIndex(DistancePresets, 19.0)].preset == "Auditorium"
    ensures DistancePresets[MatchIndex(DistancePresets, 60.0)].preset == "Hangar"
  {
    MatchIndexCharacterised(DistancePresets, 18.0, 0);
    MatchIndexCharacterised(DistancePresets, 19.0, 1);
    MatchFallback(DistancePresets, 60.0);
  }

  // ---------------------------------------------------------------------------------------
  // Percentages

  /** The share of `total` that `value` leaves over, floored at PercentageFloor. A zero total
      would divide by zero; the aggregation always passes PercentageTotal. */
  function InverseNormalizeToPercentage(value: real, total: real): real
    requires total != 0.0
  {
    Max((total - value) / total * 1.0, PercentageFloor)
  }

  /** The share of `total` that `value` makes up, floored at PercentageFloor. */
  function NormalizeToPercentage(value: real, total: real): real
    requires total != 0.0
  {
    Max(value / total * 1.0, PercentageFloor)
  }

  /** Both percentages are at least the floor; nothing is missing at 0 and all of the total is
      there at the total; over a positive total they stay at or below 1 for values inside it. */
  lemma PercentagesFloored(value: real, total: real)
    requires total != 0.0
    ensures InverseNormalizeToPercentage(value, total) >= PercentageFloor
    ensures NormalizeToPercentage(value, total) >= PercentageFloor
    ensures InverseNormalizeToPercentage(0.0, total) == 1.0
    ensures NormalizeToPercentage(total, total) == 1.0
    ensures total > 0.0 && value >= 0.0 ==> InverseNormalizeToPercentage(value, total) <= 1.0
    ensures total > 0.0 && value <= total ==> NormalizeToPercentage(value, total) <= 1.0
  {
    assert (total - 0.0) / total == 1.0;
    assert total / total == 1.0;
    if total > 0.0 && value >= 0.0 {
      DivAtMost(total - value, total, 1.0);
    }
    if total > 0.0 && value <= total {
      DivAtMost(value, total, 1.0);
    }
  }

  lemma DivAtMost(a: real, b: real, c: real)
    requires b > 0.0 && a <= c * b
    ensures a / b <= c
  {
    assert a / b * b == a;
  }

  lemma DivAtLeast(a: real, b: real, c: real)
    requires b > 0.0 && a >= c * b
    ensures a / b >= c
  {
    assert a / b * b == a;
  }

  /** Away from the floor the two percentages are complements: they add up to 1. */
  lemma PercentagesComplement(value: real, total: real)
    requires total > 0.0
    requires PercentageFloor * total <= value <= (1.0 - PercentageFloor) * total
    ensures NormalizeToPercentage(value, total) + InverseNormalizeToPercentage(value, total) == 1.0
  {
    DivAtLeast(value, total, PercentageFloor);
    DivAtLeast(total - value, total, PercentageFloor);
    assert value / total + (total - value) / total == total / total;
  }

  /** The more there is of `value`, the smaller what it leaves over. */
  lemma InverseNormalizeAntitone(v1: real, v2: real, total: real)
    requires total > 0.0 && v1 <= v2
    ensures InverseNormalizeToPercentage(v2, total) <= InverseNormalizeToPercentage(v1, total)
  {
    DivAtMost(total - v2, total, (total - v1) / total);
  }

  // ---------------------------------------------------------------------------------------
  // Absorption

  /** The linear distance factor of an absorbing entity at `distance` from the listener, weighed
      against the ray's latest segment length `segment`: 1 - (distance - segment) / segment,
      clamped to [0, FalloffCap]. On a zero-length segment the source divides by zero; the model
      takes the clamped limit of that quotient. */
  function LinearFalloff(distance: real, segment: real): real
  {
    if segment == 0.0 then (if distance < 0.0 then FalloffCap else 0.0)
    else Clamp(1.0 - (distance - segment) / segment, 0.0, FalloffCap)
  }

  /** The factor lies in [0, 100]; it is at least 1 for an entity no farther than the segment,
      and 0 for one at least twice as far. */
  lemma LinearFalloffRange(distance: real, segment: real)
    ensures 0.0 <= LinearFalloff(distance, segment) <= FalloffCap
    ensures segment > 0.0 && distance <= segment ==> LinearFalloff(distance, segment) >= 1.0
    ensures segment > 0.0 && distance >= 2.0 * segment ==> LinearFalloff(distance, segment) == 0.0
  {
    if segment > 0.0 && distance <= segment {
      DivAtMost(distance - segment, segment, 0.0);
    }
    if segment > 0.0 && distance >= 2.0 * segment {
      DivAtLeast(distance - segment, segment, 1.0);
    }
  }

  /** Over a positive segment, a farther entity never weighs more. */
  lemma LinearFalloffAntitone(d1: real, d2: real, segment: real)
    requires segment > 0.0 && d1 <= d2
    ensures LinearFalloff(d2, segment) <= LinearFalloff(d1, segment)
  {
    DivAtMost(d1 - segment, segment, (d2 - segment) / segment);
  }

  /** What one hit contributes: nothing unless the entity carries absorption data, otherwise its
      coefficient times the linear factor at its distance from the listener. */
  function HitAbsorption(hit: RayHit, segment: real, env: Surroundings): real
  {
    match env.component(hit.entity)
    case None => 0.0
    case Some(comp) => comp.absorption * LinearFalloff(env.distanceToListener(hit.entity), segment)
  }

  /** A contribution has the sign of the coefficient and at most FalloffCap times its size. */
  lemma HitAbsorptionSign(hit: RayHit, segment: real, env: Surroundings)
    ensures env.component(hit.entity).None? ==> HitAbsorption(hit, segment, env) == 0.0
    ensures env.component(hit.entity).Some? && env.component(hit.entity).value.absorption >= 0.0 ==>
      0.0 <= HitAbsorption(hit, segment, env) <= env.component(hit.entity).value.absorption * FalloffCap
    ensures env.component(hit.entity).Some? && env.component(hit.entity).value.absorption <= 0.0 ==>
      env.component(hit.entity).value.absorption * FalloffCap <= HitAbsorption(hit, segment, env) <= 0.0
  {
    var f := LinearFalloff(env.distanceToListener(hit.entity), segment);
    LinearFalloffRange(env.distanceToListener(hit.entity), segment);
    if env.component(hit.entity).Some? {
      var c := env.component(hit.entity).value.absorption;
      assert HitAbsorption(hit, segment, env) == c * f;
      if c >= 0.0 {
        MulWithin(c, f);
      } else {
        MulWithin(-c, f);
        assert (-c) * f == -(c * f);
      }
    }
  }

  lemma MulWithin(c: real, f: real)
    requires c >= 0.0 && 0.0 <= f <= FalloffCap
    ensures 0.0 <= c * f <= c * FalloffCap
  {
  }

  /** The per-hit absorption in the given surroundings, as a function value. */
  function EchoAbsorber(env: Surroundings): (RayHit, real) -> real
  {
    (hit, segment) => HitAbsorption(hit, segment, env)
  }

  /** `absorb` gives each hit's absorption in `env`. The ray's totals are specified over such an
      `absorb`, so that their proofs meet the falloff arithmetic only where a hit is gathered. */
  ghost predicate IsEchoAbsorber(absorb: (RayHit, real) -> real, env: Surroundings)
  {
    forall hit, segment {:trigger HitAbsorption(hit, segment, env)} ::
      absorb(hit, segment) == HitAbsorption(hit, segment, env)
  }

  lemma EchoAbsorberIsEchoAbsorber(env: Surroundings)
    ensures IsEchoAbsorber(EchoAbsorber(env), env)
  {
  }

  /** The summed contributions of a list of hits, front to back, all weighed with one segment. */
  function AbsorptionSum(hits: seq<RayHit>, segment: real, absorb: (RayHit, real) -> real): real
  {
    if hits == [] then 0.0 else AbsorptionSum(hits[..|hits| - 1], segment, absorb) + absorb(hits[|hits| - 1], segment)
  }

  lemma {:induction false} AbsorptionSumAppend(a: seq<RayHit>, b: seq<RayHit>, segment: real,
                                               absorb: (RayHit, real) -> real)
    ensures AbsorptionSum(a + b, segment, absorb) == AbsorptionSum(a, segment, absorb) + AbsorptionSum(b, segment, absorb)
  {
    if b == [] {
      assert a + b == a;
    } else {
      assert (a + b)[..|a + b| - 1] == a + b[..|b| - 1];
      AbsorptionSumAppend(a, b[..|b| - 1], segment, absorb);
    }
  }

  /** Surroundings in which no coefficient is negative. */
  ghost predicate NonNegativeCoefficients(env: Surroundings)
  {
    forall e :: env.component(e).Some? ==> env.component(e).value.absorption >= 0.0
  }

  /** With non-negative coefficients, hits only ever add absorption. */
  lemma {:induction false} AbsorptionSumNonNegative(hits: seq<RayHit>, segment: real,
                                                    absorb: (RayHit, real) -> real, env: Surroundings)
    requires IsEchoAbsorber(absorb, env) && NonNegativeCoefficients(env)
    ensures AbsorptionSum(hits, segment, absorb) >= 0.0
  {
    if hits != [] {
      AbsorptionSumNonNegative(hits[..|hits| - 1], segment, absorb, env);
      var h := hits[|hits| - 1];
      HitAbsorptionSign(h, segment, env);
      assert absorb(h, segment) == HitAbsorption(h, segment, env);
    }
  }

  // ---------------------------------------------------------------------------------------
  // The step record

  /** A snapshot of every field of an EchoRayStep. */
  datatype EchoStep = EchoStep(
    oldPos: Vec2,
    newPos: Vec2,
    newDistance: real,
    totalDistance: real,
    remainingDistance: real,
    maxProbeDistance: real,
    direction: Vec2,
    translation: Vec2,
    probeTranslation: Vec2)

  /** The record a ray starts from: at the start position, nothing travelled, the whole range
      ahead, heading along the (already normalised) direction. */
  function StartStep(startPos: Vec2, direction: Vec2, maxDistance: real, maxProbeLength: real): EchoStep
  {
    EchoStep(startPos, startPos, 0.0, 0.0, maxDistance, maxProbeLength, direction,
             Scale(direction, maxDistance), Scale(direction, maxProbeLength))
  }

  /** EchoRayStep, the step record the three update helpers change in place. */
  class EchoRayStep {
    var oldPos: Vec2
    var newPos: Vec2
    var newDistance: real
    var totalDistance: real
    var remainingDistance: real
    var maxProbeDistance: real
    var direction: Vec2
    var translation: Vec2
    var probeTranslation: Vec2

    function View(): EchoStep
      reads this
    {
      EchoStep(oldPos, newPos, newDistance, totalDistance, remainingDistance, maxProbeDistance,
               direction, translation, probeTranslation)
    }

    constructor (startPos: Vec2, direction: Vec2, maxDistance: real, maxProbeLength: real)
      ensures View() == StartStep(startPos, direction, maxDistance, maxProbeLength)
    {
      oldPos := startPos;
      newPos := startPos;
      newDistance := 0.0;
      totalDistance := 0.0;
      remainingDistance := maxDistance;
      maxProbeDistance := maxProbeLength;
      this.direction := direction;
      translation := Scale(direction, maxDistance);
      probeTranslation := Scale(direction, maxProbeLength);
    }
  }

  /** UpdateProbeStep on a snapshot: move to the probe's hit point. The segment is never
      negative, and it moves from the remaining budget to the distance travelled. */
  function ProbeStep(s: EchoStep, worldHitPos: Vec2, geo: Geometry): (w: EchoStep)
    ensures w.totalDistance + w.remainingDistance == s.totalDistance + s.remainingDistance
    ensures w.newDistance == Max(0.0, geo.distance(s.newPos, worldHitPos))
    ensures w.newDistance >= 0.0 && w.totalDistance == s.totalDistance + w.newDistance
    ensures w.oldPos == s.newPos && w.newPos == worldHitPos
    ensures w.translation == Scale(s.direction, w.newDistance)
    ensures w.probeTranslation == Scale(s.direction, s.maxProbeDistance)
    ensures w.direction == s.direction && w.maxProbeDistance == s.maxProbeDistance
  {
    var newDistance := Max(0.0, geo.distance(s.newPos, worldHitPos));
    s.(oldPos := s.newPos, newPos := worldHitPos, newDistance := newDistance,
       remainingDistance := s.remainingDistance - newDistance,
       totalDistance := s.totalDistance + newDistance,
       translation := Scale(s.direction, newDistance),
       probeTranslation := Scale(s.direction, s.maxProbeDistance))
  }

  /** UpdateProbeStepReflect on a snapshot: step off the wall along the normal, start the next
      segment there, and head along the normalised reflection. No distance changes. */
  function ReflectStep(s: EchoStep, normal: Vec2, geo: Geometry): (w: EchoStep)
    ensures w.newPos == Add(s.newPos, Scale(normal, ReflectOffset)) && w.oldPos == w.newPos
    ensures w.direction == geo.normalize(Reflect(s.direction, normal))
    ensures w.translation == Scale(w.direction, s.newDistance)
    ensures w.probeTranslation == Scale(w.direction, s.maxProbeDistance)
    ensures w.newDistance == s.newDistance && w.totalDistance == s.totalDistance
    ensures w.remainingDistance == s.remainingDistance && w.maxProbeDistance == s.maxProbeDistance
  {
    var newPos := Add(s.newPos, Scale(normal, ReflectOffset));
    var direction := geo.normalize(Reflect(s.direction, normal));
    s.(newPos := newPos, oldPos := newPos, direction := direction,
       translation := Scale(direction, s.newDistance),
       probeTranslation := Scale(direction, s.maxProbeDistance))
  }

  /** UpdateStepForward on a snapshot: move on by the current translation. The segment moves from
      the remaining budget to the distance travelled. */
  function ForwardStep(s: EchoStep, geo: Geometry): (w: EchoStep)
    ensures w.totalDistance + w.remainingDistance == s.totalDistance + s.remainingDistance
    ensures w.oldPos == s.newPos && w.newPos == Add(s.newPos, s.translation)
    ensures w.newDistance == geo.distance(s.newPos, w.newPos)
    ensures w.totalDistance == s.totalDistance + w.newDistance
    ensures w.translation == Scale(s.direction, w.newDistance)
    ensures w.probeTranslation == s.probeTranslation
    ensures w.direction == s.direction && w.maxProbeDistance == s.maxProbeDistance
  {
    var newPos := Add(s.newPos, s.translation);
    var newDistance := geo.distance(s.newPos, newPos);
    s.(oldPos := s.newPos, newPos := newPos, newDistance := newDistance,
       remainingDistance := s.remainingDistance - newDistance,
       totalDistance := s.totalDistance + newDistance,
       translation := Scale(s.direction, newDistance))
  }

  method UpdateProbeStep(step: EchoRayStep, worldHitPos: Vec2, geo: Geometry)
    modifies step
    ensures step.View() == ProbeStep(old(step.View()), worldHitPos, geo)
  {
    step.oldPos := step.newPos;
    step.newPos := worldHitPos;
    step.newDistance := geo.distance(step.oldPos, step.newPos);
    step.newDistance := Max(0.0, step.newDistance);
    step.remainingDistance := step.remainingDistance - step.newDistance;
    step.totalDistance := step.totalDistance + step.newDistance;
    step.translation := Scale(step.direction, step.newDistance);
    step.probeTranslation := Scale(step.direction, step.maxProbeDistance);
  }

  method UpdateProbeStepReflect(step: EchoRayStep, worldNormal: Vec2, geo: Geometry)
    modifies step
    ensures step.View() == ReflectStep(old(step.View()), worldNormal, geo)
  {
    step.newPos := Add(step.newPos, Scale(worldNormal, ReflectOffset));
    step.oldPos := step.newPos;
    step.direction := Reflect(step.direction, worldNormal);
    step.direction := geo.normalize(step.direction);
    step.translation := Scale(step.direction, step.newDistance);
    step.probeTranslation := Scale(step.direction, step.maxProbeDistance);
  }

  method UpdateStepForward(step: EchoRayStep, geo: Geometry)
    modifies step
    ensures step.View() == ForwardStep(old(step.View()), geo)
  {
    step.oldPos := step.newPos;
    step.newPos := Add(step.newPos, step.translation);
    step.newDistance := geo.distance(step.oldPos, step.newPos);
    step.remainingDistance := step.remainingDistance - step.newDistance;
    step.totalDistance := step.totalDistance + step.newDistance;
    step.translation := Scale(step.direction, step.newDistance);
  }

  // ---------------------------------------------------------------------------------------
  // One iteration

  /** What one iteration of the cast loop did: the record it left, the probe's answer, the path
      scan's answer, and the segment length all of this iteration's hits were weighed with. */
  datatype EchoOutcome = EchoOutcome(state: EchoStep, probe: RayResult, path: RayResult, weighedWith: real)

  /** One iteration: probe from the current position; on a hit move to the wall, scan the
      segment just travelled and bounce off the (normalised) surface normal; on a miss scan from
      the old position along the current translation and move forward. A hit weighs with the new
      segment, a miss with the segment left over from the previous iteration. */
  function EchoIteration(s: EchoStep, query: SpatialQuery, geo: Geometry): (o: EchoOutcome)
    ensures o.state.totalDistance + o.state.remainingDistance == s.totalDistance + s.remainingDistance
    ensures o.probe == query.probe(s.newPos, s.probeTranslation)
    ensures NonNegativeDistance(geo) ==> o.state.totalDistance >= s.totalDistance
    ensures o.probe.Hit() ==>
      var moved := ProbeStep(s, o.probe.results[0].point, geo);
      && o.path == query.path(s.newPos, moved.translation)
      && o.state == ReflectStep(moved, geo.normalize(o.probe.results[0].normal), geo)
      && o.weighedWith == moved.newDistance
    ensures !o.probe.Hit() ==>
      && o.path == query.path(s.oldPos, s.translation)
      && o.state == ForwardStep(s, geo)
      && o.weighedWith == s.newDistance
  {
    var probe := query.probe(s.newPos, s.probeTranslation);
    if probe.Hit() then
      var normal := geo.normalize(probe.results[0].normal);
      var moved := ProbeStep(s, probe.results[0].point, geo);
      var path := query.path(moved.oldPos, moved.translation);
      EchoOutcome(ReflectStep(moved, normal, geo), probe, path, moved.newDistance)
    else
      var path := query.path(s.oldPos, s.translation);
      EchoOutcome(ForwardStep(s, geo), probe, path, s.newDistance)
  }

  /** The iteration as a function value: the step the cast loop repeats. */
  function EchoStepper(query: SpatialQuery, geo: Geometry): EchoStep -> EchoOutcome
  {
    s => EchoIteration(s, query, geo)
  }

  /** `step` is the iteration for this query and geometry. The cast loop is specified over such
      a `step`, so that its proof meets the iteration's definition only where the loop runs it. */
  ghost predicate IsEchoStep(step: EchoStep -> EchoOutcome, query: SpatialQuery, geo: Geometry)
  {
    forall s {:trigger EchoIteration(s, query, geo)} :: step(s) == EchoIteration(s, query, geo)
  }

  lemma EchoStepperIsEchoStep(query: SpatialQuery, geo: Geometry)
    ensures IsEchoStep(EchoStepper(query, geo), query, geo)
  {
  }

  /** A step that, like the iteration, moves each segment from the budget to the distance. */
  ghost predicate KeepsLedger(step: EchoStep -> EchoOutcome)
  {
    forall s :: step(s).state.totalDistance + step(s).state.remainingDistance == s.totalDistance + s.remainingDistance
  }

  /** A step that never shortens the distance travelled. */
  ghost predicate NeverShrinks(step: EchoStep -> EchoOutcome)
  {
    forall s :: step(s).state.totalDistance >= s.totalDistance
  }

  lemma EchoStepperKeepsLedger(query: SpatialQuery, geo: Geometry)
    ensures KeepsLedger(EchoStepper(query, geo))
    ensures NonNegativeDistance(geo) ==> NeverShrinks(EchoStepper(query, geo))
  {
    forall s
      ensures EchoStepper(query, geo)(s) == EchoIteration(s, query, geo)
    {
    }
  }

  // ---------------------------------------------------------------------------------------
  // One ray

  /** EchoRayStats. */
  datatype EchoRayStats = EchoRayStats(
    totalAbsorption: real,
    totalBounces: nat,
    totalEscapes: nat,
    magnitude: real)

  const NoStats: EchoRayStats := EchoRayStats(0.0, 0, 0, 0.0)

  /** The iteration's segment was long enough for the ray to count as escaped. */
  predicate Escapes(o: EchoOutcome, maxDistance: real)
  {
    o.state.newDistance > maxDistance * EscapeFraction
  }

  /** The ray ends after this iteration: it escaped, or its budget is used up. */
  predicate EndsAfter(o: EchoOutcome, maxDistance: real)
  {
    Escapes(o, maxDistance) || o.state.remainingDistance <= 0.0
  }

  /** The recorded iterations end with one after which the ray ends. */
  predicate Ended(done: seq<EchoOutcome>, maxDistance: real)
  {
    done != [] && EndsAfter(done[|done| - 1], maxDistance)
  }

  /** The record after a sequence of iterations (the starting record when there were none). */
  function LastStep(start: EchoStep, done: seq<EchoOutcome>): EchoStep
  {
    if done == [] then start else done[|done| - 1].state
  }

  /** The iterations the cast loop has recorded after `passes` passes, built the way the loop
      builds them: each pass appends the iteration from the current record, and a pass after the
      ray ended changes nothing. */
  function EchoLoop(s: EchoStep, step: EchoStep -> EchoOutcome, passes: nat, maxDistance: real): seq<EchoOutcome>
  {
    if passes == 0 then []
    else
      var done := EchoLoop(s, step, passes - 1, maxDistance);
      if Ended(done, maxDistance) then done else done + [step(LastStep(s, done))]
  }

  /** The hits one iteration weighs: the probe's wall when it hit one, then the path scan's. */
  function EchoHits(o: EchoOutcome): seq<RayHit>
  {
    (if o.probe.Hit() then [o.probe.results[0]] else []) + o.path.results
  }

  /** The totals after one more iteration: its absorption added, a bounce counted when the probe
      hit, an escape counted when it escaped, and the magnitude set to the distance travelled. */
  function Record(stats: EchoRayStats, o: EchoOutcome, maxDistance: real, absorb: (RayHit, real) -> real): EchoRayStats
  {
    EchoRayStats(stats.totalAbsorption + AbsorptionSum(EchoHits(o), o.weighedWith, absorb),
                 stats.totalBounces + (if o.probe.Hit() then 1 else 0),
                 stats.totalEscapes + (if Escapes(o, maxDistance) then 1 else 0),
                 o.state.totalDistance)
  }

  /** The totals over a sequence of iterations. */
  function Tally(steps: seq<EchoOutcome>, maxDistance: real, absorb: (RayHit, real) -> real): EchoRayStats
  {
    if steps == [] then NoStats
    else Record(Tally(steps[..|steps| - 1], maxDistance, absorb), steps[|steps| - 1], maxDistance, absorb)
  }

  /** The number of iterations whose probe hit a wall, counted from the front. */
  function BounceCount(steps: seq<EchoOutcome>): nat
  {
    if steps == [] then 0 else (if steps[0].probe.Hit() then 1 else 0) + BounceCount(steps[1..])
  }

  lemma {:induction false} BounceCountSnoc(steps: seq<EchoOutcome>, o: EchoOutcome)
    ensures BounceCount(steps + [o]) == BounceCount(steps) + (if o.probe.Hit() then 1 else 0)
  {
    if steps != [] {
      assert (steps + [o])[1..] == steps[1..] + [o];
      BounceCountSnoc(steps[1..], o);
    } else {
      assert ([] + [o])[1..] == [];
    }
  }

  /** The UpdateAcousticData call for one hit: a hit on an entity with absorption data adds its
      coefficient times the linear factor; nothing else changes. */
  method UpdateAcousticData(stats: EchoRayStats, hit: RayHit, segment: real, env: Surroundings)
    returns (updated: EchoRayStats)
    ensures updated == stats.(totalAbsorption := stats.totalAbsorption + HitAbsorption(hit, segment, env))
  {
    updated := stats;
    var comp := env.component(hit.entity);
    if comp.Some? {
      var distance := env.distanceToListener(hit.entity);
      var distanceFactor := LinearFalloff(distance, segment);
      updated := updated.(totalAbsorption := updated.totalAbsorption + comp.value.absorption * distanceFactor);
    }
  }

  /** The foreach over the path scan's hits. */
  method GatherHits(stats: EchoRayStats, hits: seq<RayHit>, segment: real, env: Surroundings,
                    ghost absorb: (RayHit, real) -> real)
    returns (gathered: EchoRayStats)
    requires IsEchoAbsorber(absorb, env)
    ensures gathered == stats.(totalAbsorption := stats.totalAbsorption + AbsorptionSum(hits, segment, absorb))
  {
    gathered := stats;
    if |hits| > 0 {
      for j := 0 to |hits|
        invariant gathered == stats.(totalAbsorption := stats.totalAbsorption + AbsorptionSum(hits[..j], segment, absorb))
      {
        assert hits[..j + 1][..j] == hits[..j];
        gathered := UpdateAcousticData(gathered, hits[j], segment, env);
        assert absorb(hits[j], segment) == HitAbsorption(hits[j], segment, env);
      }
      assert hits[..|hits|] == hits;
    }
  }

  /** One iteration's data gathering on the step record: probe, move and weigh the wall, scan and
      weigh the path, then bounce (counting it) or move forward. */
  method CastIteration(stepData: EchoRayStep, stats: EchoRayStats, query: SpatialQuery, geo: Geometry,
                       env: Surroundings, ghost absorb: (RayHit, real) -> real)
    returns (next: EchoRayStats, ghost o: EchoOutcome)
    requires IsEchoAbsorber(absorb, env)
    modifies stepData
    ensures o == EchoIteration(old(stepData.View()), query, geo) && stepData.View() == o.state
    ensures next == stats.(totalAbsorption := stats.totalAbsorption + AbsorptionSum(EchoHits(o), o.weighedWith, absorb),
                           totalBounces := stats.totalBounces + (if o.probe.Hit() then 1 else 0))
  {
    ghost var before := stepData.View();
    next := stats;
    var worldNormal: Option<Vec2> := None;
    ghost var probeHits: seq<RayHit> := [];

    var probe := query.probe(stepData.newPos, stepData.probeTranslation);
    if probe.Hit() {
      worldNormal := Some(geo.normalize(probe.results[0].normal));
      UpdateProbeStep(stepData, probe.results[0].point, geo);
      next := UpdateAcousticData(next, probe.results[0], stepData.newDistance, env);
      probeHits := [probe.results[0]];
      assert absorb(probe.results[0], stepData.newDistance) == HitAbsorption(probe.results[0], stepData.newDistance, env);
      assert [probe.results[0]][..0] == [];
    }
    ghost var weighedWith := stepData.newDistance;
    assert next.totalAbsorption == stats.totalAbsorption + AbsorptionSum(probeHits, weighedWith, absorb);

    var path := query.path(stepData.oldPos, stepData.translation);
    if |path.results| > 0 {
      next := GatherHits(next, path.results, stepData.newDistance, env, absorb);
    }
    AbsorptionSumAppend(probeHits, path.results, weighedWith, absorb);

    if worldNormal.Some? {
      UpdateProbeStepReflect(stepData, worldNormal.value, geo);
      next := next.(totalBounces := next.totalBounces + 1);
    } else {
      UpdateStepForward(stepData, geo);
    }
    o := EchoOutcome(stepData.View(), probe, path, weighedWith);
    assert EchoHits(o) == probeHits + path.results;
  }

  /** A pass before the ray ended appends the iteration from the current record. */
  lemma EchoLoopNext(s: EchoStep, step: EchoStep -> EchoOutcome, n: nat, maxDistance: real)
    requires !Ended(EchoLoop(s, step, n, maxDistance), maxDistance)
    ensures var done := EchoLoop(s, step, n, maxDistance);
      EchoLoop(s, step, n + 1, maxDistance) == done + [step(LastStep(s, done))]
  {
  }

  /** Once ended, further passes change nothing. */
  lemma {:induction false} EchoLoopStable(s: EchoStep, step: EchoStep -> EchoOutcome, m: nat, n: nat,
                                          maxDistance: real)
    requires m <= n && Ended(EchoLoop(s, step, m, maxDistance), maxDistance)
    ensures EchoLoop(s, step, n, maxDistance) == EchoLoop(s, step, m, maxDistance)
    decreases n - m
  {
    if m < n {
      EchoLoopStable(s, step, m, n - 1, maxDistance);
    }
  }

  /** One pass of the cast loop: an iteration with its data gathering, then the escape check
      (which counts the escape), the magnitude update and the budget check. `stop` says whether
      the ray ends here. */
  method EchoPass(stepData: EchoRayStep, stats: EchoRayStats, query: SpatialQuery, geo: Geometry,
                  env: Surroundings, maxDistance: real, ghost step: EchoStep -> EchoOutcome,
                  ghost absorb: (RayHit, real) -> real, ghost start: EchoStep, ghost steps: seq<EchoOutcome>,
                  ghost n: nat)
    returns (next: EchoRayStats, stop: bool, ghost after: seq<EchoOutcome>)
    requires IsEchoStep(step, query, geo) && IsEchoAbsorber(absorb, env)
    requires steps == EchoLoop(start, step, n, maxDistance) && !Ended(steps, maxDistance)
    requires stats == Tally(steps, maxDistance, absorb)
    requires stepData.View() == LastStep(start, steps)
    modifies stepData
    ensures after == EchoLoop(start, step, n + 1, maxDistance)
    ensures next == Tally(after, maxDistance, absorb)
    ensures stepData.View() == LastStep(start, after)
    ensures stop <==> Ended(after, maxDistance)
  {
    ghost var before := stepData.View();
    ghost var o;
    next, o := CastIteration(stepData, stats, query, geo, env, absorb);
    assert o == step(before);
    EchoLoopNext(start, step, n, maxDistance);
    after := steps + [o];
    assert after[..|steps|] == steps;
    stop := false;
    if stepData.newDistance > maxDistance * EscapeFraction {
      next := next.(magnitude := stepData.totalDistance, totalEscapes := next.totalEscapes + 1);
      stop := true;
    } else {
      next := next.(magnitude := stepData.totalDistance);
      if stepData.remainingDistance <= 0.0 {
        stop := true;
      }
    }
  }

  /** Casts one ray from `startPos` along `direction` (normalised first) with its own step
      record: at most maxIterations + 1 iterations, ending after one that escaped (counted as an
      escape) or that used up the budget. The totals are those of the ray's recorded
      iterations. */
  method CastAudioRay(query: SpatialQuery, geo: Geometry, env: Surroundings, startPos: Vec2,
                      direction: Vec2, maxDistance: real, maxIterations: int, maxProbeLength: real,
                      ghost step: EchoStep -> EchoOutcome, ghost absorb: (RayHit, real) -> real)
    returns (rayStats: EchoRayStats)
    requires IsEchoStep(step, query, geo) && IsEchoAbsorber(absorb, env)
    ensures rayStats == Tally(EchoLoop(StartStep(startPos, geo.normalize(direction), maxDistance, maxProbeLength),
                                       step, Passes(maxIterations), maxDistance), maxDistance, absorb)
  {
    var currentDirection := geo.normalize(direction);
    var stepData := new EchoRayStep(startPos, currentDirection, maxDistance, maxProbeLength);
    rayStats := NoStats;

    ghost var start := stepData.View();
    ghost var steps: seq<EchoOutcome> := [];
    ghost var passes := Passes(maxIterations);
    ghost var ran: nat := 0;
    for iteration := 0 to Passes(maxIterations)
      invariant ran == iteration
      invariant steps == EchoLoop(start, step, ran, maxDistance) && !Ended(steps, maxDistance)
      invariant rayStats == Tally(steps, maxDistance, absorb)
      invariant stepData.View() == LastStep(start, steps)
    {
      var stop;
      rayStats, stop, steps := EchoPass(stepData, rayStats, query, geo, env, maxDistance, step, absorb,
                                        start, steps, iteration);
      if stop {
        EchoLoopStable(start, step, iteration + 1, passes, maxDistance);
        ran := passes;
        break;
      }
      ran := iteration + 1;
    }
    assert ran == passes;
  }

  /** The shape of the recorded iterations: at most one per pass; fewer only when the ray ended;
      the ray ends after no iteration but the last; the first iteration runs from the starting
      record and each later one from the record the previous one left. */
  lemma {:induction false} EchoLoopShape(s: EchoStep, step: EchoStep -> EchoOutcome, n: nat, maxDistance: real)
    ensures var t := EchoLoop(s, step, n, maxDistance);
      && |t| <= n
      && (|t| < n ==> Ended(t, maxDistance))
      && (forall k :: 0 <= k < |t| - 1 ==> !EndsAfter(t[k], maxDistance))
      && (t != [] ==> t[0] == step(s))
      && (forall k :: 0 < k < |t| ==> t[k] == step(t[k - 1].state))
  {
    if n > 0 {
      EchoLoopShape(s, step, n - 1, maxDistance);
      var done := EchoLoop(s, step, n - 1, maxDistance);
      if !Ended(done, maxDistance) {
        var t := done + [step(LastStep(s, done))];
        assert forall k :: 0 <= k < |done| ==> t[k] == done[k];
      }
    }
  }

  /** Along the recorded iterations the distance travelled and the budget left always add up to
      what they did at the start; with a step that never shortens the distance travelled, the
      record left behind has travelled at least as far as the start. */
  lemma {:induction false} EchoLoopLedger(s: EchoStep, step: EchoStep -> EchoOutcome, n: nat, maxDistance: real)
    requires KeepsLedger(step)
    ensures var last := LastStep(s, EchoLoop(s, step, n, maxDistance));
      last.totalDistance + last.remainingDistance == s.totalDistance + s.remainingDistance
    ensures NeverShrinks(step) ==> LastStep(s, EchoLoop(s, step, n, maxDistance)).totalDistance >= s.totalDistance
  {
    if n > 0 {
      EchoLoopLedger(s, step, n - 1, maxDistance);
    }
  }

  /** The totals over the recorded iterations: TotalBounces counts the iterations whose probe
      hit; TotalEscapes is 1 exactly when the last iteration escaped, provided no earlier one did;
      the magnitude is the distance travelled after the last iteration. */
  lemma {:induction false} TallyFacts(steps: seq<EchoOutcome>, maxDistance: real, absorb: (RayHit, real) -> real)
    requires forall k :: 0 <= k < |steps| - 1 ==> !Escapes(steps[k], maxDistance)
    ensures Tally(steps, maxDistance, absorb).totalBounces == BounceCount(steps) <= |steps|
    ensures Tally(steps, maxDistance, absorb).totalEscapes
         == if steps != [] && Escapes(steps[|steps| - 1], maxDistance) then 1 else 0
    ensures steps != [] ==> Tally(steps, maxDistance, absorb).magnitude == steps[|steps| - 1].state.totalDistance
  {
    if steps != [] {
      var init := steps[..|steps| - 1];
      assert forall k :: 0 <= k < |init| ==> init[k] == steps[k];
      TallyFacts(init, maxDistance, absorb);
      BounceCountSnoc(init, steps[|steps| - 1]);
      assert init + [steps[|steps| - 1]] == steps;
    }
  }

  /** With non-negative coefficients a ray's absorption total is never negative. */
  lemma {:induction false} TallyAbsorptionNonNegative(steps: seq<EchoOutcome>, maxDistance: real,
                                                      absorb: (RayHit, real) -> real, env: Surroundings)
    requires IsEchoAbsorber(absorb, env) && NonNegativeCoefficients(env)
    ensures Tally(steps, maxDistance, absorb).totalAbsorption >= 0.0
  {
    if steps != [] {
      TallyAbsorptionNonNegative(steps[..|steps| - 1], maxDistance, absorb, env);
      var o := steps[|steps| - 1];
      AbsorptionSumNonNegative(EchoHits(o), o.weighedWith, absorb, env);
    }
  }

  /** What one ray reports: at most maxIterations + 1 iterations; TotalEscapes is 0 or 1, and 1
      exactly when the last iteration escaped; a ray that stopped short of its passes escaped or
      used up its budget, and every earlier iteration left budget and did not escape;
      TotalBounces counts the probe hits; the magnitude is the distance travelled, which with
      the budget adds up to the starting budget. */
  lemma EchoRayCharacterised(s: EchoStep, step: EchoStep -> EchoOutcome, maxIterations: int,
                             maxDistance: real, absorb: (RayHit, real) -> real)
    requires KeepsLedger(step)
    ensures var t := EchoLoop(s, step, Passes(maxIterations), maxDistance);
      var r := Tally(t, maxDistance, absorb);
      && |t| <= Passes(maxIterations)
      && r.totalEscapes <= 1
      && (r.totalEscapes == 1 <==> t != [] && Escapes(t[|t| - 1], maxDistance))
      && (|t| < Passes(maxIterations) ==>
            t != [] && (Escapes(t[|t| - 1], maxDistance) || t[|t| - 1].state.remainingDistance <= 0.0))
      && (forall k :: 0 <= k < |t| - 1 ==>
            t[k].state.remainingDistance > 0.0 && !Escapes(t[k], maxDistance))
      && r.totalBounces == BounceCount(t) <= |t|
      && (t != [] ==> r.magnitude == t[|t| - 1].state.totalDistance
                   == s.totalDistance + s.remainingDistance - t[|t| - 1].state.remainingDistance)
  {
    var n := Passes(maxIterations);
    EchoLoopShape(s, step, n, maxDistance);
    EchoLoopLedger(s, step, n, maxDistance);
    TallyFacts(EchoLoop(s, step, n, maxDistance), maxDistance, absorb);
  }

  // ---------------------------------------------------------------------------------------
  // Many rays and the aggregation

  /** What the ray cast along `angle` from `origin` reports, with the range, the probe length
      and the iteration cap the aggregation uses. */
  function EchoRay(origin: Vec2, angle: real, maxDistance: real, maxIterations: int, query: SpatialQuery,
                   geo: Geometry, env: Surroundings): EchoRayStats
  {
    Tally(EchoLoop(StartStep(origin, geo.normalize(geo.angleToVec(angle)), maxDistance, maxDistance),
                   EchoStepper(query, geo), Passes(maxIterations), maxDistance), maxDistance, EchoAbsorber(env))
  }

  /** What a sampling pass yields: nothing when the listener is invalid, has no transform, is
      not on a resolvable tile or is in space, or when there are no directions; otherwise one
      ray per direction, turned by its jitter. */
  function EchoSample(listener: Listener, maxDistance: real, maxIterations: int, dirs: seq<real>,
                      jitters: seq<real>, query: SpatialQuery, geo: Geometry,
                      env: Surroundings): Option<seq<EchoRayStats>>
    requires |jitters| == |dirs|
  {
    if !listener.CanSample() || dirs == [] then None
    else Some(seq(|dirs|, i requires 0 <= i < |dirs| =>
                EchoRay(listener.position, dirs[i] + jitters[i], maxDistance, maxIterations, query, geo, env)))
  }

  /** One ray of the foreach: cast from the listener along the jittered angle, with the range
      as both the distance budget and the probe length. */
  method CastJitteredRay(origin: Vec2, offsetDirection: real, maxDistance: real, maxIterations: int,
                         query: SpatialQuery, geo: Geometry, env: Surroundings)
    returns (stats: EchoRayStats)
    ensures stats == EchoRay(origin, offsetDirection, maxDistance, maxIterations, query, geo, env)
  {
    EchoStepperIsEchoStep(query, geo);
    EchoAbsorberIsEchoAbsorber(env);
    stats := CastAudioRay(query, geo, env, origin, geo.angleToVec(offsetDirection), maxDistance,
                          maxIterations, maxDistance, EchoStepper(query, geo), EchoAbsorber(env));
  }

  /** The foreach over the directions: one ray per direction, each from the listener along its
      jittered angle, appended in order. */
  method CastRays(origin: Vec2, maxDistance: real, maxIterations: int, dirs: seq<real>, jitters: seq<real>,
                  query: SpatialQuery, geo: Geometry, env: Surroundings)
    returns (environmentResults: seq<EchoRayStats>)
    requires |jitters| == |dirs|
    ensures |environmentResults| == |dirs|
    ensures forall i :: 0 <= i < |dirs| ==>
      environmentResults[i] == EchoRay(origin, dirs[i] + jitters[i], maxDistance, maxIterations, query, geo, env)
  {
    environmentResults := [];
    for i := 0 to |dirs|
      invariant |environmentResults| == i
      invariant forall k :: 0 <= k < i ==>
        environmentResults[k] == EchoRay(origin, dirs[k] + jitters[k], maxDistance, maxIterations, query, geo, env)
    {
      var offsetDirection := dirs[i] + jitters[i];
      var stats := CastJitteredRay(origin, offsetDirection, maxDistance, maxIterations, query, geo, env);
      environmentResults := environmentResults + [stats];
    }
  }

  function Magnitudes(rs: seq<EchoRayStats>): seq<real>
  {
    seq(|rs|, i requires 0 <= i < |rs| => rs[i].magnitude)
  }

  function Absorptions(rs: seq<EchoRayStats>): seq<real>
  {
    seq(|rs|, i requires 0 <= i < |rs| => rs[i].totalAbsorption)
  }

  function Escapees(rs: seq<EchoRayStats>): seq<real>
  {
    seq(|rs|, i requires 0 <= i < |rs| => rs[i].totalEscapes as real)
  }

  /** The final magnitude from the smoothed average ray length: scaled by the inverse
      percentages of the average absorption and of the average escape count, and by the roof
      factor when the listener is unroofed. */
  function EchoMagnitude(smoothed: real, avgAbsorption: real, avgEscaped: real, unroofed: bool): real
  {
    RoofFactor((smoothed * InverseNormalizeToPercentage(avgAbsorption, PercentageTotal))
               * InverseNormalizeToPercentage(avgEscaped, PercentageTotal), unroofed)
  }

  function RoofFactor(x: real, unroofed: bool): real
  {
    if unroofed then x * UnroofedFactor else x
  }

  /** The average escape count lies in [0, 1], so its inverse percentage of 100 lies in
      [0.99, 1]: the escape penalty removes at most one percent of the magnitude. */
  lemma EscapePenaltyAtMostOnePercent(avgEscaped: real)
    requires 0.0 <= avgEscaped <= 1.0
    ensures 0.99 <= InverseNormalizeToPercentage(avgEscaped, PercentageTotal) <= 1.0
  {
    DivAtLeast(PercentageTotal - avgEscaped, PercentageTotal, 0.99);
    DivAtMost(PercentageTotal - avgEscaped, PercentageTotal, 1.0);
  }

  /** With a non-negative smoothed length and absorption and an escape average in [0, 1], the
      magnitude lies between 0 and the smoothed length (0.3 of it when unroofed); an absorption
      average of 99 or more leaves at most a hundredth of it. */
  lemma EchoMagnitudeBounds(smoothed: real, avgAbsorption: real, avgEscaped: real, unroofed: bool)
    requires smoothed >= 0.0 && avgAbsorption >= 0.0 && 0.0 <= avgEscaped <= 1.0
    ensures 0.0 <= EchoMagnitude(smoothed, avgAbsorption, avgEscaped, unroofed) <= smoothed
    ensures unroofed ==> EchoMagnitude(smoothed, avgAbsorption, avgEscaped, unroofed) <= smoothed * UnroofedFactor
    ensures avgAbsorption >= 99.0 ==>
      EchoMagnitude(smoothed, avgAbsorption, avgEscaped, unroofed) <= smoothed * PercentageFloor
  {
    var a := InverseNormalizeToPercentage(avgAbsorption, PercentageTotal);
    var e := InverseNormalizeToPercentage(avgEscaped, PercentageTotal);
    PercentagesFloored(avgAbsorption, PercentageTotal);
    EscapePenaltyAtMostOnePercent(avgEscaped);
    if avgAbsorption >= 99.0 {
      DivAtMost(PercentageTotal - avgAbsorption, PercentageTotal, PercentageFloor);
      assert a == PercentageFloor;
    }
    ScaleWithin(smoothed, a, e, unroofed);
    assert EchoMagnitude(smoothed, avgAbsorption, avgEscaped, unroofed) == RoofFactor((smoothed * a) * e, unroofed);
  }

  lemma ScaleWithin(s: real, a: real, e: real, unroofed: bool)
    requires s >= 0.0 && PercentageFloor <= a <= 1.0 && 0.99 <= e <= 1.0
    ensures 0.0 <= RoofFactor((s * a) * e, unroofed) <= s * a <= s
    ensures unroofed ==> RoofFactor((s * a) * e, unroofed) <= s * UnroofedFactor
  {
    assert 0.0 <= s * a <= s * 1.0 == s;
    assert 0.0 <= (s * a) * e <= (s * a) * 1.0;
    if unroofed {
      assert (s * a) * e * UnroofedFactor <= s * UnroofedFactor;
    }
  }

  /** The per-ray facts the aggregation relies on: every sampled ray escaped at most once, so
      the escape average lies in [0, 1]; with distances that are never negative every magnitude
      and hence the average length is non-negative; with non-negative coefficients so is the
      average absorption. */
  lemma EchoSampleBounds(listener: Listener, maxDistance: real, maxIterations: int, dirs: seq<real>,
                         jitters: seq<real>, query: SpatialQuery, geo: Geometry, env: Surroundings)
    requires |jitters| == |dirs|
    requires EchoSample(listener, maxDistance, maxIterations, dirs, jitters, query, geo, env).Some?
    ensures var rs := EchoSample(listener, maxDistance, maxIterations, dirs, jitters, query, geo, env).value;
      && |rs| > 0
      && 0.0 <= Average(Escapees(rs)) <= 1.0
      && (NonNegativeDistance(geo) ==> Average(Magnitudes(rs)) >= 0.0)
      && (NonNegativeCoefficients(env) ==> Average(Absorptions(rs)) >= 0.0)
  {
    var rs := EchoSample(listener, maxDistance, maxIterations, dirs, jitters, query, geo, env).value;
    var step := EchoStepper(query, geo);
    EchoStepperKeepsLedger(query, geo);
    EchoAbsorberIsEchoAbsorber(env);
    forall i | 0 <= i < |rs|
      ensures 0.0 <= Escapees(rs)[i] <= 1.0
      ensures NonNegativeDistance(geo) ==> Magnitudes(rs)[i] >= 0.0
      ensures NonNegativeCoefficients(env) ==> Absorptions(rs)[i] >= 0.0
    {
      var start := StartStep(listener.position, geo.normalize(geo.angleToVec(dirs[i] + jitters[i])),
                             maxDistance, maxDistance);
      var t := EchoLoop(start, step, Passes(maxIterations), maxDistance);
      assert rs[i] == Tally(t, maxDistance, EchoAbsorber(env));
      EchoRayCharacterised(start, step, maxIterations, maxDistance, EchoAbsorber(env));
      EchoLoopLedger(start, step, Passes(maxIterations), maxDistance);
      if NonNegativeCoefficients(env) {
        TallyAbsorptionNonNegative(t, maxDistance, EchoAbsorber(env), env);
      }
    }
    AverageBounds(Escapees(rs), 0.0, 1.0);
    if NonNegativeDistance(geo) {
      AverageNonNegative(Magnitudes(rs));
    }
    if NonNegativeCoefficients(env) {
      AverageNonNegative(Absorptions(rs));
    }
  }

  /** Over a whole pass: when the sample succeeds, with distances and coefficients that are
      never negative and a non-negative stored value, the reported magnitude lies between 0 and
      the newly smoothed average ray length. */
  lemma AreaMagnitudeBounds(prev: real, listener: Listener, maxDistance: real, maxIterations: int,
                            dirs: seq<real>, jitters: seq<real>, query: SpatialQuery, geo: Geometry,
                            env: Surroundings)
    requires |jitters| == |dirs| && prev >= 0.0
    requires NonNegativeDistance(geo) && NonNegativeCoefficients(env)
    requires EchoSample(listener, maxDistance, maxIterations, dirs, jitters, query, geo, env).Some?
    ensures var rs := EchoSample(listener, maxDistance, maxIterations, dirs, jitters, query, geo, env).value;
      var smoothed := SmoothMagnitude(prev, Average(Magnitudes(rs)));
      0.0 <= EchoMagnitude(smoothed, Average(Absorptions(rs)), Average(Escapees(rs)), listener.unroofed) <= smoothed
  {
    var rs := EchoSample(listener, maxDistance, maxIterations, dirs, jitters, query, geo, env).value;
    EchoSampleBounds(listener, maxDistance, maxIterations, dirs, jitters, query, geo, env);
    SmoothMagnitudeBetween(prev, Average(Magnitudes(rs)));
    EchoMagnitudeBounds(SmoothMagnitude(prev, Average(Magnitudes(rs))), Average(Absorptions(rs)),
                        Average(Escapees(rs)), listener.unroofed);
  }

  // ---------------------------------------------------------------------------------------
  // The system

  /** The echo system's state: the smoothed average ray length remembered between passes, the
      iteration cap per ray and the directions cast. */
  class AreaEchoSystem {
    var prevAvgMagnitude: real
    var echoMaxReflections: int
    var calculatedDirections: seq<real>

    /** The configuration as read at start-up: the high-resolution setting selects the
        directions, the reflection count caps the iterations per ray. */
    constructor (lib: CompassLibrary, highResolution: bool, reflectionCount: int)
      ensures prevAvgMagnitude == 0.0 && echoMaxReflections == reflectionCount
      ensures !highResolution ==>
        calculatedDirections == [lib.toAngle(North), lib.toAngle(West), lib.toAngle(South), lib.toAngle(East)]
      ensures highResolution ==> |calculatedDirections| == |lib.allDirections|
      ensures highResolution ==> forall i :: 0 <= i < |calculatedDirections| ==>
        calculatedDirections[i] == lib.toAngle(lib.allDirections[i])
    {
      var directions := GetEffectiveDirections(highResolution, lib);
      prevAvgMagnitude := 0.0;
      echoMaxReflections := reflectionCount;
      calculatedDirections := directions;
    }

    /** The aggregation over the ray results: average them, smooth the average ray length
        against the stored value (and store it), and scale it by the absorption and escape
        percentages and, for an unroofed listener, the roof factor. */
    method AggregateMagnitude(environmentResults: seq<EchoRayStats>, unroofed: bool) returns (magnitude: real)
      requires |environmentResults| > 0
      modifies this
      ensures prevAvgMagnitude == SmoothMagnitude(old(prevAvgMagnitude), Average(Magnitudes(environmentResults)))
      ensures magnitude == EchoMagnitude(prevAvgMagnitude, Average(Absorptions(environmentResults)),
                                         Average(Escapees(environmentResults)), unroofed)
      ensures echoMaxReflections == old(echoMaxReflections)
      ensures calculatedDirections == old(calculatedDirections)
    {
      var avgMagnitude := Average(Magnitudes(environmentResults));
      var avgAbsorption := Average(Absorptions(environmentResults));
      var avgEscaped := Average(Escapees(environmentResults));

      if prevAvgMagnitude > FloatEpsilon {
        avgMagnitude := Lerp(prevAvgMagnitude, avgMagnitude, SmoothingBlend);
      }
      prevAvgMagnitude := avgMagnitude;

      var absorption := InverseNormalizeToPercentage(avgAbsorption, PercentageTotal);
      var escape := InverseNormalizeToPercentage(avgEscaped, PercentageTotal);
      var finalMagnitude := 0.0;
      finalMagnitude := finalMagnitude + avgMagnitude;
      finalMagnitude := finalMagnitude * absorption;
      finalMagnitude := finalMagnitude * escape;
      if unroofed {
        finalMagnitude := finalMagnitude * UnroofedFactor;
      }
      magnitude := finalMagnitude;
    }

    /** One sampling pass from the listener: fails with magnitude 0 (and the stored value left
        alone) when the listener cannot sample or there are no directions; otherwise casts one
        ray per jittered direction, smooths the average ray length against the stored value
        (and stores it), and scales it by the absorption and escape percentages and, for an
        unroofed listener, the roof factor. */
    method TryProcessAreaSpaceMagnitude(listener: Listener, maximumMagnitude: real, jitters: seq<real>,
                                        query: SpatialQuery, geo: Geometry, env: Surroundings)
      returns (ok: bool, magnitude: real)
      requires |jitters| == |calculatedDirections|
      modifies this
      ensures var sample := EchoSample(listener, maximumMagnitude, old(echoMaxReflections),
                                       old(calculatedDirections), jitters, query, geo, env);
        && (ok <==> sample.Some?)
        && (!ok ==> magnitude == 0.0 && prevAvgMagnitude == old(prevAvgMagnitude))
        && (ok ==>
              |sample.value| > 0
              && prevAvgMagnitude == SmoothMagnitude(old(prevAvgMagnitude), Average(Magnitudes(sample.value)))
              && magnitude == EchoMagnitude(prevAvgMagnitude, Average(Absorptions(sample.value)),
                                            Average(Escapees(sample.value)), listener.unroofed))
      ensures echoMaxReflections == old(echoMaxReflections)
      ensures calculatedDirections == old(calculatedDirections)
    {
      magnitude := 0.0;
      if !listener.valid || !listener.hasTransform {
        return false, magnitude;
      }
      if !listener.tileResolved || listener.onSpaceTile {
        return false, magnitude;
      }
      var environmentResults := CastRays(listener.position, maximumMagnitude, echoMaxReflections,
                                         calculatedDirections, jitters, query, geo, env);
      if |environmentResults| == 0 {
        return false, magnitude;
      }
      assert environmentResults == EchoSample(listener, maximumMagnitude, echoMaxReflections,
                                              calculatedDirections, jitters, query, geo, env).value;
      magnitude := AggregateMagnitude(environmentResults, listener.unroofed);
      ok := true;
    }

    /** One pass for one sound: sample with the largest threshold as the range (a failed sample
        leaves the magnitude at 0), then apply the best preset when the magnitude exceeds the
        smallest threshold and remove the effect otherwise. */
    method ProcessAudioEntity(listener: Listener, jitters: seq<real>, query: SpatialQuery, geo: Geometry,
                              env: Surroundings)
      returns (decision: EffectDecision, ghost magnitude: real)
      requires |jitters| == |calculatedDirections|
      modifies this
      ensures decision == Decide(DistancePresets, magnitude)
      ensures decision.Apply? <==> magnitude > MinimumMagnitude
      ensures var sample := EchoSample(listener, MaximumMagnitude, old(echoMaxReflections),
                                       old(calculatedDirections), jitters, query, geo, env);
        && (sample.None? ==> magnitude == 0.0 && decision == Remove && prevAvgMagnitude == old(prevAvgMagnitude))
        && (sample.Some? ==>
              prevAvgMagnitude == SmoothMagnitude(old(prevAvgMagnitude), Average(Magnitudes(sample.value)))
              && magnitude == EchoMagnitude(prevAvgMagnitude, Average(Absorptions(sample.value)),
                                            Average(Escapees(sample.value)), listener.unroofed))
      ensures echoMaxReflections == old(echoMaxReflections)
      ensures calculatedDirections == old(calculatedDirections)
    {
      var ok, echoMagnitude := TryProcessAreaSpaceMagnitude(listener, MaximumMagnitude, jitters, query, geo, env);
      magnitude := echoMagnitude;
      if echoMagnitude > MinimumMagnitude {
        var bestPreset := GetBestPreset(echoMagnitude);
        decision := Apply(bestPreset);
      } else {
        decision := Remove;
      }
    }
  }
}
