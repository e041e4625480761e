/** The directions rays are cast in. Direction.ToAngle and DirectionExtensions.AllDirections
    are engine library code, so they arrive as a parameter. */
module Compass {

  datatype Direction = South | SouthEast | East | NorthEast | North | NorthWest | West | SouthWest

  /** The engine's compass: the angle (radians) of each direction and the list of all eight. */
  datatype CompassLibrary = CompassLibrary(toAngle: Direction -> real, allDirections: seq<Direction>)

  /** Four cardinal directions (north, west, south, east) unless high resolution is on, in which
      case one angle per entry of AllDirections, in the same order. */
  method GetEffectiveDirections(highResolution: bool, lib: CompassLibrary) returns (directions: seq<real>)
    ensures !highResolution ==>
      directions == [lib.toAngle(North), lib.toAngle(West), lib.toAngle(South), lib.toAngle(East)]
    ensures highResolution ==> |directions| == |lib.allDirections|
    ensures highResolution ==>
      forall i :: 0 <= i < |directions| ==> directions[i] == lib.toAngle(lib.allDirections[i])
  {
    if highResolution {
      var all := lib.allDirections;
      var angles := new real[|all|];
      for i := 0 to |all|
        invariant forall j :: 0 <= j < i ==> angles[j] == lib.toAngle(all[j])
      {
        angles[i] := lib.toAngle(all[i]);
      }
      return angles[..];
    }
    return [lib.toAngle(North), lib.toAngle(West), lib.toAngle(South), lib.toAngle(East)];
  }
}
