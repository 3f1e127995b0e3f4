/**
  `OGSCourseData`: the runtime course component. It keeps a list of holes and the
  ground-snapping settings the editor uses; `Reset` restores the settings and
  `OnValidate` renames the holes by position and clamps the snap distance.
*/
module CourseData {
  import opened Geometry
  import opened CourseRules

  /** `OGSCourseDataHole`: one hole's settings, edited in place. */
  class Hole {
    var name: string
    var par: int
    /** The white tee box (its legacy name is kept). */
    var teeLocalPosition: Vec3
    /** The green tee box used in par 3 mode. */
    var teeGreenPosition: Vec3
    var holeLocalPosition: Vec3
    var hasAimPoint: bool
    var aimLocalPosition: Vec3

    /** A new hole: named `Hole`, par 4, both tees at the origin, the pin ten units
        forward and the aim point, switched off, five units forward. */
    constructor ()
      ensures name == "Hole" && par == 4
      ensures teeLocalPosition == Zero3 && teeGreenPosition == Zero3
      ensures holeLocalPosition == DefaultPinPosition
      ensures !hasAimPoint && aimLocalPosition == DefaultAimPosition
    {
      name := "Hole";
      par := 4;
      teeLocalPosition := Zero3;
      teeGreenPosition := Zero3;
      holeLocalPosition := DefaultPinPosition;
      hasAimPoint := false;
      aimLocalPosition := DefaultAimPosition;
    }
  }

  class CourseData {
    var holes: seq<Hole>
    var snapToGroundOnEdit: bool
    var groundSnapMaxDistance: real
    var groundLayerMask: LayerMask

    /** The serialised holes are separate objects: no hole appears twice in the list. */
    predicate Valid()
      reads this
    {
      forall i, j :: 0 <= i < j < |holes| ==> holes[i] != holes[j]
    }

    /** The field initialisers: no holes, snapping on, a 100-unit search distance
        (where `Reset` uses 50) and every layer. */
    constructor ()
      ensures Valid()
      ensures holes == [] && snapToGroundOnEdit
      ensures groundSnapMaxDistance == 100.0 && groundLayerMask == Everything
    {
      holes := [];
      snapToGroundOnEdit := true;
      groundSnapMaxDistance := 100.0;
      groundLayerMask := Everything;
    }

    /** `Reset`: snapping on, a 50-unit search distance and every layer; the holes
        are kept. */
    method Reset()
      modifies this`snapToGroundOnEdit, this`groundSnapMaxDistance, this`groundLayerMask
      ensures snapToGroundOnEdit && groundSnapMaxDistance == 50.0 && groundLayerMask == Everything
    {
      snapToGroundOnEdit := true;
      groundSnapMaxDistance := 50.0;
      groundLayerMask := Everything;
    }

    /** The state `OnValidate` establishes: every hole named after its position and
        a snap distance that is not negative. */
    predicate Validated()
      reads this, holes
    {
      && groundSnapMaxDistance >= 0.0
      && forall i :: 0 <= i < |holes| ==> holes[i].name == HoleName(i)
    }

    /** The renaming loop of `OnValidate`: hole `i` is named `Hole {i+1}`. */
    method RenameHoles()
      requires Valid()
      modifies holes`name
      ensures forall i :: 0 <= i < |holes| ==> holes[i].name == HoleName(i)
    {
      for i := 0 to |holes|
        invariant forall j :: 0 <= j < i ==> holes[j].name == HoleName(j)
      {
        holes[i].name := HoleName(i);
      }
    }

    /** `OnValidate`: hole `i` is renamed `Hole {i+1}` and a negative snap distance
        becomes zero. The list, every other hole field and every other setting are
        unchanged, and on a state it has validated already it changes nothing. */
    method OnValidate()
      requires Valid()
      modifies holes`name, this`groundSnapMaxDistance
      ensures Validated()
      ensures forall i :: 0 <= i < |holes| ==> holes[i].name == HoleName(i)
      ensures groundSnapMaxDistance == ClampedDistance(old(groundSnapMaxDistance))
      ensures holes == old(holes)
      ensures unchanged(holes`par, holes`teeLocalPosition, holes`teeGreenPosition, holes`holeLocalPosition, holes`hasAimPoint, holes`aimLocalPosition)
      ensures snapToGroundOnEdit == old(snapToGroundOnEdit) && groundLayerMask == old(groundLayerMask)
      ensures old(Validated()) ==>
                && groundSnapMaxDistance == old(groundSnapMaxDistance)
                && forall i :: 0 <= i < |holes| ==> holes[i].name == old(holes[i].name)
    {
      RenameHoles();
      if groundSnapMaxDistance < 0.0 {
        groundSnapMaxDistance := 0.0;
      }
    }
  }
}
