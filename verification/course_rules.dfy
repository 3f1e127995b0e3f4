/**
  What the two course components share: the name every hole gets on validation,
  the layer mask that selects every layer, and the default hole geometry.
*/
module CourseRules {
  import opened Strings
  import opened Geometry

  /** `$"Hole {i + 1}"`: the name of the hole at list index `i`. The text after
      `Hole ` reads back as the hole's one-based number. */
  function HoleName(i: nat): (name: string)
    ensures |name| > 5 && name[..5] == "Hole "
    ensures IsDigits(name[5..]) && DigitsValue(name[5..]) == i + 1
  {
    NatToStringRoundTrip(i + 1);
    var name := "Hole " + NatToString(i + 1);
    assert name[5..] == NatToString(i + 1);
    name
  }

  /** Two holes at different indices never get the same name. */
  lemma HoleNamesDistinct(i: nat, j: nat)
    requires i != j
    ensures HoleName(i) != HoleName(j)
  {
    var a, b := HoleName(i), HoleName(j);
    assert DigitsValue(a[5..]) != DigitsValue(b[5..]);
  }

  /** `LayerMask`: one bit per layer, 32 layers. */
  type LayerMask = bv32

  /** `~0`: every bit set. */
  const Everything: LayerMask := !0

  /** A raycast with `mask` can hit colliders on `layer`. */
  predicate IncludesLayer(mask: LayerMask, layer: nat)
    requires layer < 32
  {
    mask & (1 << layer) != 0
  }

  /** The default mask lets ground snapping hit every layer. */
  lemma EverythingIncludesEveryLayer(layer: nat)
    requires layer < 32
    ensures IncludesLayer(Everything, layer)
  {
  }

  /** `Vector3.forward * 10f`: where a new hole's pin starts. */
  const DefaultPinPosition: Vec3 := Scale(Forward, 10.0)

  /** `Vector3.forward * 5f`: where a new hole's aim point starts. */
  const DefaultAimPosition: Vec3 := Scale(Forward, 5.0)

  /** The snap distance `OnValidate` leaves: negative distances become zero and the
      others are kept. */
  function ClampedDistance(d: real): (r: real)
    ensures r >= 0.0
    ensures d >= 0.0 ==> r == d
    ensures r == d || r == 0.0
  {
    if d < 0.0 then 0.0 else d
  }

  /** Clamping a clamped distance changes nothing. */
  lemma ClampedDistanceIdempotent(d: real)
    ensures ClampedDistance(ClampedDistance(d)) == ClampedDistance(d)
  {
  }
}
