/** The reflective ray kernel: a mutable ray state advanced one segment at a time. Each step
    casts a probe for the nearest reflective obstacle; on a hit the state moves to the hit point,
    the path query scans the segment just travelled, and the state reflects off the surface; on a
    miss the path query is cast first and the state then moves forward by its translation. */
module ReflectiveRay {
  import opened Vectors
  import opened Environment

  /** ReflectiveRayState.HitSurfaceOffset's initial value. */
  const DefaultHitSurfaceOffset: real := 0.001

  /** UpdateStateForward never records a segment shorter than this. */
  const ForwardMinSegment: real := 0.05

  /** A snapshot of every field of a ReflectiveRayState that the kernel reads or writes (the map
      id and the two query filters live in the SpatialQuery instead). */
  datatype RayView = RayView(
    currentPos: Vec2,
    oldPos: Vec2,
    direction: Vec2,
    maxRange: real,
    currentSegmentDistance: real,
    remainingDistance: real,
    translation: Vec2,
    probeTranslation: Vec2,
    hitSurfaceNormal: Option<Vec2>,
    hitSurfaceOffset: real)

  /** The state as the primary constructor leaves it (OldPos keeps its default, the zero vector). */
  function InitialView(origin: Vec2, direction: Vec2, maxRange: real): RayView
  {
    RayView(origin, Zero, direction, maxRange, maxRange, maxRange,
            Scale(direction, maxRange), Scale(direction, maxRange), None, DefaultHitSurfaceOffset)
  }

  class ReflectiveRayState {
    var currentPos: Vec2
    var oldPos: Vec2
    var direction: Vec2
    var maxRange: real
    var currentSegmentDistance: real
    var remainingDistance: real
    var translation: Vec2
    var probeTranslation: Vec2
    var hitSurfaceNormal: Option<Vec2>
    var hitSurfaceOffset: real

    function View(): RayView
      reads this
    {
      RayView(currentPos, oldPos, direction, maxRange, currentSegmentDistance, remainingDistance,
              translation, probeTranslation, hitSurfaceNormal, hitSurfaceOffset)
    }

    constructor (origin: Vec2, dir: Vec2, range: real)
      ensures View() == InitialView(origin, dir, range)
    {
      currentPos := origin;
      oldPos := Zero;
      direction := dir;
      maxRange := range;
      currentSegmentDistance := range;
      remainingDistance := range;
      translation := Scale(dir, range);
      probeTranslation := Scale(dir, range);
      hitSurfaceNormal := None;
      hitSurfaceOffset := DefaultHitSurfaceOffset;
    }
  }

  /** UpdateStateForward on a snapshot: advance by the current translation. */
  function StateForward(v: RayView, geo: Geometry): (w: RayView)
    ensures w.oldPos == v.currentPos
    ensures w.currentPos == Add(w.oldPos, v.translation)
    ensures w.currentSegmentDistance >= ForwardMinSegment
    ensures w.currentSegmentDistance >= geo.distance(w.oldPos, w.currentPos)
    ensures w.currentSegmentDistance == ForwardMinSegment
         || w.currentSegmentDistance == geo.distance(w.oldPos, w.currentPos)
    ensures w.remainingDistance == v.remainingDistance - w.currentSegmentDistance
    ensures w.remainingDistance <= v.remainingDistance - ForwardMinSegment
    ensures w.translation == Scale(v.direction, w.currentSegmentDistance)
    ensures w.direction == v.direction && w.probeTranslation == v.probeTranslation
    ensures w.maxRange == v.maxRange && w.hitSurfaceNormal == v.hitSurfaceNormal
    ensures w.hitSurfaceOffset == v.hitSurfaceOffset
  {
    var oldPos := v.currentPos;
    var currentPos := Add(oldPos, v.translation);
    var segment := Max(ForwardMinSegment, geo.distance(oldPos, currentPos));
    v.(oldPos := oldPos, currentPos := currentPos, currentSegmentDistance := segment,
       remainingDistance := v.remainingDistance - segment,
       translation := Scale(v.direction, segment))
  }

  /** UpdateStateToPos on a snapshot: move to a world hit position. */
  function StateToPos(v: RayView, worldHitPos: Vec2, geo: Geometry): (w: RayView)
    ensures w.oldPos == v.currentPos && w.currentPos == worldHitPos
    ensures w.currentSegmentDistance >= 0.0
    ensures w.currentSegmentDistance >= geo.distance(v.currentPos, worldHitPos)
    ensures w.currentSegmentDistance == 0.0
         || w.currentSegmentDistance == geo.distance(v.currentPos, worldHitPos)
    ensures w.remainingDistance == v.remainingDistance - w.currentSegmentDistance
    ensures w.remainingDistance <= v.remainingDistance
    ensures w.translation == Scale(v.direction, w.currentSegmentDistance)
    ensures w.direction == v.direction && w.probeTranslation == v.probeTranslation
    ensures w.maxRange == v.maxRange && w.hitSurfaceNormal == v.hitSurfaceNormal
    ensures w.hitSurfaceOffset == v.hitSurfaceOffset
  {
    var segment := Max(0.0, geo.distance(v.currentPos, worldHitPos));
    v.(oldPos := v.currentPos, currentPos := worldHitPos, currentSegmentDistance := segment,
       remainingDistance := v.remainingDistance - segment,
       translation := Scale(v.direction, segment))
  }

  /** UpdateStateReflect on a snapshot: step off the surface and bounce the direction. The
      source asserts that a surface normal is present (reading it otherwise throws). */
  function StateReflect(v: RayView, geo: Geometry): (w: RayView)
    requires v.hitSurfaceNormal.Some?
    ensures w.currentPos == Add(v.currentPos, Scale(v.hitSurfaceNormal.value, v.hitSurfaceOffset))
    ensures w.direction == geo.normalize(Reflect(v.direction, v.hitSurfaceNormal.value))
    ensures w.translation == Scale(w.direction, v.currentSegmentDistance)
    ensures w.probeTranslation == Scale(w.direction, v.maxRange)
    ensures w.oldPos == v.oldPos && w.currentSegmentDistance == v.currentSegmentDistance
    ensures w.remainingDistance == v.remainingDistance && w.maxRange == v.maxRange
    ensures w.hitSurfaceNormal == v.hitSurfaceNormal && w.hitSurfaceOffset == v.hitSurfaceOffset
  {
    var n := v.hitSurfaceNormal.value;
    var direction := geo.normalize(Reflect(v.direction, n));
    v.(currentPos := Add(v.currentPos, Scale(n, v.hitSurfaceOffset)),
       direction := direction,
       translation := Scale(direction, v.currentSegmentDistance),
       probeTranslation := Scale(direction, v.maxRange))
  }

  /** TryUpdateStateToProbeHit on a snapshot: on a hit, move to the closest hit point and record
      its surface normal; on a miss, leave the state as it was. */
  function StateAfterProbe(v: RayView, probe: RayResult, geo: Geometry): (w: RayView)
    ensures !probe.Hit() ==> w == v
    ensures probe.Hit() ==> w.currentPos == probe.results[0].point && w.oldPos == v.currentPos
    ensures probe.Hit() ==> w.hitSurfaceNormal == Some(probe.results[0].normal)
    ensures probe.Hit() ==>
      w == StateToPos(v, probe.results[0].point, geo).(hitSurfaceNormal := w.hitSurfaceNormal)
  {
    if probe.Hit() then
      StateToPos(v, probe.results[0].point, geo).(hitSurfaceNormal := Some(probe.results[0].normal))
    else v
  }

  /** What one call of the single-step CastAndUpdateReflectiveRayStateRef produces. */
  datatype StepOutcome = StepOutcome(state: RayView, probe: RayResult, path: RayResult)

  /** One step: probe, then (hit) move, scan the travelled segment, reflect, or (miss) scan from
      the old position along the current translation, then move forward. */
  function Step(v: RayView, query: SpatialQuery, geo: Geometry): (o: StepOutcome)
    ensures o.probe == query.probe(v.currentPos, v.probeTranslation)
    ensures o.probe.Hit() ==>
      && o.path == query.path(v.currentPos, Scale(v.direction, o.state.currentSegmentDistance))
      && o.state.oldPos == v.currentPos
      && o.state.currentPos == Add(o.probe.results[0].point,
                                   Scale(o.probe.results[0].normal, v.hitSurfaceOffset))
      && o.state.direction == geo.normalize(Reflect(v.direction, o.probe.results[0].normal))
      && o.state.hitSurfaceNormal == Some(o.probe.results[0].normal)
    ensures !o.probe.Hit() ==>
      o.path == query.path(v.oldPos, v.translation) && o.state == StateForward(v, geo)
    ensures o.state.currentSegmentDistance >= 0.0
    ensures o.state.remainingDistance == v.remainingDistance - o.state.currentSegmentDistance
    ensures o.state.maxRange == v.maxRange && o.state.hitSurfaceOffset == v.hitSurfaceOffset
  {
    var probe := query.probe(v.currentPos, v.probeTranslation);
    if probe.Hit() then
      var moved := StateAfterProbe(v, probe, geo);
      var path := query.path(moved.oldPos, moved.translation);
      StepOutcome(StateReflect(moved, geo), probe, path)
    else
      var path := query.path(v.oldPos, v.translation);
      StepOutcome(StateForward(v, geo), probe, path)
  }

  /** The kernel's cast-and-update as a function value: the step the loops repeat. */
  function Stepper(query: SpatialQuery, geo: Geometry): RayView -> StepOutcome
  {
    v => Step(v, query, geo)
  }

  /** `step` is the kernel's step for this query and geometry: wherever the kernel runs on a
      state, `step` gives the same outcome. The loops that repeat the kernel are specified over such a
      `step`, so that their proofs meet the kernel's definition only where the kernel runs. */
  ghost predicate IsKernelStep(step: RayView -> StepOutcome, query: SpatialQuery, geo: Geometry)
  {
    forall w {:trigger Step(w, query, geo)} :: step(w) == Step(w, query, geo)
  }

  lemma StepperIsKernelStep(query: SpatialQuery, geo: Geometry)
    ensures IsKernelStep(Stepper(query, geo), query, geo)
  {
  }

  /** What the range budget needs of a step: like the kernel's, it keeps MaxRange and takes the
      segment it records off RemainingDistance. */
  ghost predicate KeepsBudget(step: RayView -> StepOutcome)
  {
    forall w :: step(w).state.maxRange == w.maxRange
             && step(w).state.remainingDistance == w.remainingDistance - step(w).state.currentSegmentDistance
  }

  lemma StepperKeepsBudget(query: SpatialQuery, geo: Geometry)
    ensures KeepsBudget(Stepper(query, geo))
  {
    forall w
      ensures Stepper(query, geo)(w) == Step(w, query, geo)
    {
    }
  }

  method UpdateStateForward(state: ReflectiveRayState, geo: Geometry)
    modifies state
    ensures state.View() == StateForward(old(state.View()), geo)
  {
    state.oldPos := state.currentPos;
    state.currentPos := Add(state.oldPos, state.translation);
    state.currentSegmentDistance := Max(ForwardMinSegment, geo.distance(state.oldPos, state.currentPos));
    state.remainingDistance := state.remainingDistance - state.currentSegmentDistance;
    state.translation := Scale(state.direction, state.currentSegmentDistance);
  }

  method UpdateStateToPos(state: ReflectiveRayState, worldHitPos: Vec2, geo: Geometry)
    modifies state
    ensures state.View() == StateToPos(old(state.View()), worldHitPos, geo)
  {
    state.oldPos := state.currentPos;
    state.currentPos := worldHitPos;
    state.currentSegmentDistance := Max(0.0, geo.distance(state.oldPos, state.currentPos));
    state.remainingDistance := state.remainingDistance - state.currentSegmentDistance;
    state.translation := Scale(state.direction, state.currentSegmentDistance);
  }

  method UpdateStateReflect(state: ReflectiveRayState, geo: Geometry)
    requires state.hitSurfaceNormal.Some?
    modifies state
    ensures state.View() == StateReflect(old(state.View()), geo)
  {
    state.currentPos := Add(state.currentPos, Scale(state.hitSurfaceNormal.value, state.hitSurfaceOffset));
    state.direction := geo.normalize(Reflect(state.direction, state.hitSurfaceNormal.value));
    state.translation := Scale(state.direction, state.currentSegmentDistance);
    state.probeTranslation := Scale(state.direction, state.maxRange);
  }

  method TryUpdateStateToProbeHit(probe: RayResult, state: ReflectiveRayState, geo: Geometry)
    returns (hit: bool)
    modifies state
    ensures hit == probe.Hit()
    ensures state.View() == StateAfterProbe(old(state.View()), probe, geo)
    ensures !hit ==> unchanged(state)
  {
    if probe.Hit() {
      UpdateStateToPos(state, probe.results[0].point, geo);
      state.hitSurfaceNormal := Some(probe.results[0].normal);
      return true;
    }
    return false;
  }

  /** The single-step overload. */
  method CastAndUpdateReflectiveRayStateRef(state: ReflectiveRayState, query: SpatialQuery, geo: Geometry)
    returns (probe: RayResult, path: RayResult)
    modifies state
    ensures StepOutcome(state.View(), probe, path) == Step(old(state.View()), query, geo)
  {
    probe := query.probe(state.currentPos, state.probeTranslation);
    var hit := TryUpdateStateToProbeHit(probe, state, geo);
    if hit {
      path := query.path(state.oldPos, state.translation);
      UpdateStateReflect(state, geo);
    } else {
      path := query.path(state.oldPos, state.translation);
      UpdateStateForward(state, geo);
    }
  }

  /** The state after a sequence of steps (the starting state when there were none). */
  function FinalView(start: RayView, steps: seq<StepOutcome>): RayView
  {
    if steps == [] then start else steps[|steps| - 1].state
  }

  /** Sum of the segment distances recorded by a sequence of steps. */
  function SegmentSum(steps: seq<StepOutcome>): real
  {
    if steps == [] then 0.0
    else SegmentSum(steps[..|steps| - 1]) + steps[|steps| - 1].state.currentSegmentDistance
  }

  lemma {:induction false} SegmentSumCons(o: StepOutcome, steps: seq<StepOutcome>)
    ensures SegmentSum([o] + steps) == o.state.currentSegmentDistance + SegmentSum(steps)
  {
    if steps != [] {
      assert ([o] + steps)[..|steps|] == [o] + steps[..|steps| - 1];
      SegmentSumCons(o, steps[..|steps| - 1]);
    }
  }

  /** The (probe, path) pairs the iterating overload returns for a sequence of steps. */
  function Pairs(steps: seq<StepOutcome>): seq<(RayResult, RayResult)>
  {
    if steps == [] then []
    else Pairs(steps[..|steps| - 1]) + [(steps[|steps| - 1].probe, steps[|steps| - 1].path)]
  }

  /** The steps the iterating overload takes from `v`, with `iterations` iterations left and
      `totalRange` already travelled. */
  function Iterate(v: RayView, step: RayView -> StepOutcome, iterations: int,
                   useRangeBudget: bool, totalRange: real): seq<StepOutcome>
    decreases if iterations > 0 then iterations else 0
  {
    if iterations <= 0 then []
    else
      var o := step(v);
      var total := totalRange + o.state.currentSegmentDistance;
      if useRangeBudget && total >= o.state.maxRange then [o]
      else [o] + Iterate(o.state, step, iterations - 1, useRangeBudget, total)
  }

  /** One pass of the iterating loop: a step, its probe and path results appended, and its
      segment added to the range so far. `stop` says that the range budget is spent; otherwise
      what is left of the iteration continues from the new state with one iteration fewer. */
  method IteratePass(state: ReflectiveRayState, query: SpatialQuery, geo: Geometry, useRangeBudget: bool,
                     results: seq<(RayResult, RayResult)>, totalRange: real, ghost step: RayView -> StepOutcome,
                     ghost start: RayView, ghost steps: seq<StepOutcome>, ghost iterations: int)
    returns (nextResults: seq<(RayResult, RayResult)>, nextRange: real, stop: bool,
             ghost nextSteps: seq<StepOutcome>)
    requires IsKernelStep(step, query, geo) && iterations > 0
    requires results == Pairs(steps) && state.View() == FinalView(start, steps)
    modifies state
    ensures nextResults == Pairs(nextSteps) && state.View() == FinalView(start, nextSteps)
    ensures steps + Iterate(old(state.View()), step, iterations, useRangeBudget, totalRange)
         == if stop then nextSteps
            else nextSteps + Iterate(state.View(), step, iterations - 1, useRangeBudget, nextRange)
  {
    ghost var before := state.View();
    var probe, path := CastAndUpdateReflectiveRayStateRef(state, query, geo);
    ghost var o := StepOutcome(state.View(), probe, path);
    assert o == step(before);
    nextSteps := steps + [o];
    assert nextSteps[..|steps|] == steps;
    nextResults := results + [(probe, path)];
    nextRange := totalRange + state.currentSegmentDistance;
    stop := useRangeBudget && nextRange >= state.maxRange;
    if !stop {
      ghost var later := Iterate(o.state, step, iterations - 1, useRangeBudget, nextRange);
      assert steps + ([o] + later) == nextSteps + later;
    }
  }

  /** The iterating overload: step up to `maxIterations` times, collecting each step's probe and
      path results, and (with the range budget) stop once the summed segments reach MaxRange. */
  method CastAndIterateReflectiveRayStateRef(state: ReflectiveRayState, query: SpatialQuery,
                                             geo: Geometry, maxIterations: int, useRangeBudget: bool,
                                             ghost step: RayView -> StepOutcome)
    returns (results: seq<(RayResult, RayResult)>)
    requires IsKernelStep(step, query, geo)
    modifies state
    ensures results == Pairs(Iterate(old(state.View()), step, maxIterations, useRangeBudget, 0.0))
    ensures state.View() ==
      FinalView(old(state.View()), Iterate(old(state.View()), step, maxIterations, useRangeBudget, 0.0))
  {
    ghost var start := state.View();
    ghost var steps: seq<StepOutcome> := [];
    var totalRange := 0.0;
    results := [];
    var i := 0;
    ghost var left := maxIterations;
    while i < maxIterations
      invariant left == maxIterations - i
      invariant Iterate(start, step, maxIterations, useRangeBudget, 0.0)
             == steps + Iterate(state.View(), step, left, useRangeBudget, totalRange)
      invariant results == Pairs(steps)
      invariant state.View() == FinalView(start, steps)
      decreases maxIterations - i
    {
      var stop;
      results, totalRange, stop, steps :=
        IteratePass(state, query, geo, useRangeBudget, results, totalRange, step, start, steps, left);
      if stop {
        return;
      }
      i := i + 1;
      left := left - 1;
    }
    assert steps + [] == steps;
  }

  /** At most `iterations` steps are taken (none when it is not positive); without the range
      budget exactly that many. */
  lemma {:induction false} IterateLength(v: RayView, step: RayView -> StepOutcome,
                                         iterations: int, useRangeBudget: bool, totalRange: real)
    ensures iterations <= 0 ==> Iterate(v, step, iterations, useRangeBudget, totalRange) == []
    ensures iterations > 0 ==> 1 <= |Iterate(v, step, iterations, useRangeBudget, totalRange)| <= iterations
    ensures iterations > 0 && !useRangeBudget ==>
      |Iterate(v, step, iterations, useRangeBudget, totalRange)| == iterations
    decreases if iterations > 0 then iterations else 0
  {
    if iterations > 0 {
      var o := step(v);
      var total := totalRange + o.state.currentSegmentDistance;
      if !(useRangeBudget && total >= o.state.maxRange) {
        IterateLength(o.state, step, iterations - 1, useRangeBudget, total);
      }
    }
  }

  /** With the range budget the loop stops as soon as the summed segment distances reach MaxRange:
      before the last step the sum was still short of it, and an early stop means it was reached.
      MaxRange itself never changes, and RemainingDistance drops by exactly the summed segments. */
  lemma {:induction false} IterateBudget(v: RayView, step: RayView -> StepOutcome,
                                         iterations: int, useRangeBudget: bool, totalRange: real)
    requires KeepsBudget(step)
    ensures var steps := Iterate(v, step, iterations, useRangeBudget, totalRange);
      && FinalView(v, steps).maxRange == v.maxRange
      && FinalView(v, steps).remainingDistance == v.remainingDistance - SegmentSum(steps)
      && (useRangeBudget && |steps| >= 2 ==> totalRange + SegmentSum(steps[..|steps| - 1]) < v.maxRange)
      && (useRangeBudget && |steps| < iterations ==> totalRange + SegmentSum(steps) >= v.maxRange)
    decreases if iterations > 0 then iterations else 0
  {
    var steps := Iterate(v, step, iterations, useRangeBudget, totalRange);
    if iterations > 0 {
      var o := step(v);
      var total := totalRange + o.state.currentSegmentDistance;
      if useRangeBudget && total >= o.state.maxRange {
        assert steps == [o];
      } else {
        var rest := Iterate(o.state, step, iterations - 1, useRangeBudget, total);
        IterateBudget(o.state, step, iterations - 1, useRangeBudget, total);
        assert steps == [o] + rest;
        SegmentSumCons(o, rest);
        if rest != [] {
          assert steps[..|steps| - 1] == [o] + rest[..|rest| - 1];
          SegmentSumCons(o, rest[..|rest| - 1]);
          if |rest| == 1 {
            assert rest[..0] == [];
          }
        }
      }
    }
  }

  /** With the range budget every step before the last leaves the running total short of
      MaxRange: the loop only carries on while the summed segments have not reached it. */
  lemma {:induction false} IterateBudgetEveryStep(v: RayView, step: RayView -> StepOutcome,
                                                  iterations: int, totalRange: real)
    requires KeepsBudget(step)
    ensures forall k :: 1 <= k < |Iterate(v, step, iterations, true, totalRange)| ==>
      totalRange + SegmentSum(Iterate(v, step, iterations, true, totalRange)[..k]) < v.maxRange
    decreases if iterations > 0 then iterations else 0
  {
    var steps := Iterate(v, step, iterations, true, totalRange);
    if iterations > 0 {
      var o := step(v);
      var total := totalRange + o.state.currentSegmentDistance;
      if total < o.state.maxRange {
        var rest := Iterate(o.state, step, iterations - 1, true, total);
        IterateBudgetEveryStep(o.state, step, iterations - 1, total);
        assert steps == [o] + rest;
        forall k | 1 <= k < |steps|
          ensures totalRange + SegmentSum(steps[..k]) < v.maxRange
        {
          assert steps[..k] == [o] + rest[..k - 1];
          SegmentSumCons(o, rest[..k - 1]);
          assert o.state.maxRange == v.maxRange;
          if k == 1 {
            assert rest[..k - 1] == [];
          } else {
            assert total + SegmentSum(rest[..k - 1]) < o.state.maxRange;
          }
        }
      }
    }
  }

  /** On a probe miss the path query starts at OldPos, which right after a bounce is still the
      position the ray had before that bounce, and runs along the reflected direction for the
      length of the segment before the bounce. */
  lemma MissAfterBounceScansFromBeforeTheBounce(v: RayView, query: SpatialQuery, geo: Geometry)
    requires Step(v, query, geo).probe.Hit()
    requires !Step(Step(v, query, geo).state, query, geo).probe.Hit()
    ensures var bounced := Step(v, query, geo).state;
      Step(bounced, query, geo).path
        == query.path(v.currentPos, Scale(bounced.direction, bounced.currentSegmentDistance))
  {
  }

  /** A ray heading (-1, 0) that hits a surface with normal (1, 0) leaves heading (1, 0). */
  lemma BounceOffWallExample(v: RayView, query: SpatialQuery, geo: Geometry)
    requires v.direction == Vec2(-1.0, 0.0)
    requires Step(v, query, geo).probe.Hit()
    requires Step(v, query, geo).probe.results[0].normal == Vec2(1.0, 0.0)
    requires geo.normalize(Vec2(1.0, 0.0)) == Vec2(1.0, 0.0)
    ensures Step(v, query, geo).state.direction == Vec2(1.0, 0.0)
  {
    assert Reflect(Vec2(-1.0, 0.0), Vec2(1.0, 0.0)) == Vec2(1.0, 0.0);
  }
}
