/**
  `OGSCourse`: the scene course component. Like the course data component it keeps
  holes and ground-snapping settings, and also a hole count the inspector edits on
  a 1 to 18 slider; `OnValidate` renames the holes by position and clamps the snap
  distance, and never ties the list's length to the hole count.
*/
module Course {
  import opened Geometry
  import opened CourseRules

  /** `OGSCourseHole`: one hole's settings, edited in place. */
  class Hole {
    var name: string
    var teeLocalPosition: Vec3
    var holeLocalPosition: Vec3
    var hasAimPoint: bool
    var aimLocalPosition: Vec3
    var par: int

    /** A new hole: named `Hole`, the tee at the origin, the pin ten units forward,
        the aim point, switched off, five units forward, and par 4. */
    constructor ()
      ensures name == "Hole" && teeLocalPosition == Zero3
      ensures holeLocalPosition == DefaultPinPosition
      ensures !hasAimPoint && aimLocalPosition == DefaultAimPosition
      ensures par == 4
    {
      name := "Hole";
      teeLocalPosition := Zero3;
      holeLocalPosition := DefaultPinPosition;
      hasAimPoint := false;
      aimLocalPosition := DefaultAimPosition;
      par := 4;
    }
  }

  class Course {
    /** The slider's range of 1 to 18 is an inspector hint; no code enforces it. */
    var holeCount: int
    var holes: seq<Hole>
    var snapToGroundOnEdit: bool
    var groundSnapMaxDistance: real
    var groundLayerMask: LayerMask

    /** The serialised holes are separate objects: no hole appears twice in the list. */
    predicate Valid()
      reads this
    {
      forall i, j :: 0 <= i < j < |holes| ==> holes[i] != holes[j]
    }

    /** The field initialisers: 18 holes to define, an empty list, snapping on, a
        50-unit search distance and every layer. */
    constructor ()
      ensures Valid()
      ensures holeCount == 18 && holes == [] && snapToGroundOnEdit
      ensures groundSnapMaxDistance == 50.0 && groundLayerMask == Everything
    {
      holeCount := 18;
      holes := [];
      snapToGroundOnEdit := true;
      groundSnapMaxDistance := 50.0;
      groundLayerMask := Everything;
    }

    /** `Reset`: snapping on, a 50-unit search distance and every layer; the hole
        count and the holes are kept. */
    method Reset()
      modifies this`snapToGroundOnEdit, this`groundSnapMaxDistance, this`groundLayerMask
      ensures snapToGroundOnEdit && groundSnapMaxDistance == 50.0 && groundLayerMask == Everything
    {
      snapToGroundOnEdit := true;
      groundSnapMaxDistance := 50.0;
      groundLayerMask := Everything;
    }

    /** The state `OnValidate` establishes: every hole named after its position and
        a snap distance that is not negative. */
    predicate Validated()
      reads this, holes
    {
      && groundSnapMaxDistance >= 0.0
      && forall i :: 0 <= i < |holes| ==> holes[i].name == HoleName(i)
    }

    /** The renaming loop of `OnValidate`: hole `i` is named `Hole {i+1}`. */
    method RenameHoles()
      requires Valid()
      modifies holes`name
      ensures forall i :: 0 <= i < |holes| ==> holes[i].name == HoleName(i)
    {
      for i := 0 to |holes|
        invariant forall j :: 0 <= j < i ==> holes[j].name == HoleName(j)
      {
        holes[i].name := HoleName(i);
      }
    }

    /** `OnValidate`: hole `i` is renamed `Hole {i+1}` and a negative snap distance
        becomes zero. The hole count, the list (whatever its length against the
        count), every other hole field and every other setting are unchanged, and on
        a state it has validated already it changes nothing. */
    method OnValidate()
      requires Valid()
      modifies holes`name, this`groundSnapMaxDistance
      ensures Validated()
      ensures forall i :: 0 <= i < |holes| ==> holes[i].name == HoleName(i)
      ensures groundSnapMaxDistance == ClampedDistance(old(groundSnapMaxDistance))
      ensures holeCount == old(holeCount) && holes == old(holes)
      ensures unchanged(holes`teeLocalPosition, holes`holeLocalPosition, holes`hasAimPoint, holes`aimLocalPosition, holes`par)
      ensures snapToGroundOnEdit == old(snapToGroundOnEdit) && groundLayerMask == old(groundLayerMask)
      ensures old(Validated()) ==>
                && groundSnapMaxDistance == old(groundSnapMaxDistance)
                && forall i :: 0 <= i < |holes| ==> holes[i].name == old(holes[i].name)
    {
      RenameHoles();
      if groundSnapMaxDistance < 0.0 {
        groundSnapMaxDistance := 0.0;
      }
    }
  }
}
