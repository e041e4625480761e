/** Preset classification shared by both acoustic variants: an ascending table of
    (distance, preset) thresholds, the first-match lookup with a fallback to the last entry,
    and the apply-or-remove decision taken on the result. */
module Presets {

  /** AudioReverbThreshold / AudioDistanceThreshold. */
  datatype Threshold = Threshold(distance: real, preset: string)

  /** What the audio effect system is asked to do with a sound. */
  datatype EffectDecision = Apply(preset: string) | Remove

  ghost predicate Ascending(table: seq<Threshold>)
  {
    forall i, j :: 0 <= i < j < |table| ==> table[i].distance < table[j].distance
  }

  /** Index of the first threshold at or above `magnitude`, searching from `from`; the last
      index when none is. */
  function MatchFrom(table: seq<Threshold>, magnitude: real, from: nat): (k: nat)
    requires from < |table|
    ensures from <= k < |table|
    ensures forall j :: from <= j < k ==> table[j].distance < magnitude
    ensures table[k].distance >= magnitude || k == |table| - 1
    decreases |table| - from
  {
    if from == |table| - 1 || table[from].distance >= magnitude then from
    else MatchFrom(table, magnitude, from + 1)
  }

  function MatchIndex(table: seq<Threshold>, magnitude: real): (k: nat)
    requires |table| > 0
    ensures k < |table|
    ensures forall j :: 0 <= j < k ==> table[j].distance < magnitude
    ensures table[k].distance >= magnitude || k == |table| - 1
  {
    MatchFrom(table, magnitude, 0)
  }

  /** The foreach over the table: the first preset whose distance is at least the magnitude,
      otherwise the last (largest) preset. */
  method BestPreset(table: seq<Threshold>, magnitude: real) returns (preset: string)
    requires |table| > 0
    ensures preset == table[MatchIndex(table, magnitude)].preset
  {
    for i := 0 to |table|
      invariant forall j :: 0 <= j < i ==> table[j].distance < magnitude
    {
      if table[i].distance >= magnitude {
        return table[i].preset;
      }
    }
    return table[|table| - 1].preset;
  }

  /** The match is exactly the first threshold reaching the magnitude, or the fallback when
      the magnitude exceeds every threshold. */
  lemma MatchIndexCharacterised(table: seq<Threshold>, magnitude: real, k: nat)
    requires k < |table|
    requires forall j :: 0 <= j < k ==> table[j].distance < magnitude
    requires table[k].distance >= magnitude || k == |table| - 1
    ensures MatchIndex(table, magnitude) == k
  {
  }

  /** A larger magnitude never selects an earlier preset, and with an ascending table never a
      smaller threshold. */
  lemma MatchMonotone(table: seq<Threshold>, m1: real, m2: real)
    requires |table| > 0 && m1 <= m2
    ensures MatchIndex(table, m1) <= MatchIndex(table, m2)
    ensures Ascending(table) ==>
      table[MatchIndex(table, m1)].distance <= table[MatchIndex(table, m2)].distance
  {
  }

  /** A magnitude above every threshold falls back to the last entry. */
  lemma MatchFallback(table: seq<Threshold>, magnitude: real)
    requires |table| > 0
    requires forall j :: 0 <= j < |table| ==> table[j].distance < magnitude
    ensures MatchIndex(table, magnitude) == |table| - 1
  {
  }

  /** The decision taken once the magnitude is known: apply the best preset when the magnitude
      exceeds the smallest threshold, remove the effect otherwise. */
  function Decide(table: seq<Threshold>, magnitude: real): (d: EffectDecision)
    requires |table| > 0
    ensures d.Apply? <==> magnitude > table[0].distance
    ensures d.Apply? ==> d.preset == table[MatchIndex(table, magnitude)].preset
    ensures d.Apply? && |table| > 1 ==> MatchIndex(table, magnitude) > 0
  {
    if magnitude > table[0].distance then Apply(table[MatchIndex(table, magnitude)].preset)
    else Remove
  }
}
