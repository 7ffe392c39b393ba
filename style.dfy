/**
 * The style bases the scene objects inherit from: `Brane_General` (colour,
 * radius, opacity and stroke of a brane) and `Vacuum_General` (colour,
 * opacity and stroke of a vacuum box, and its per-corner rounding), with the
 * colours they use and the corner-radius vector `corner_rad * direction`
 * that the table and plot bases derive the same way.
 */
module Style {

  /** The manim colour constants the modelled code names. */
  datatype Color = White | Black | Red | Green | Blue | Pink

  /** `list(corner_rad * np.array(direction))`: each direction entry scaled
      by the scalar radius. The entries are the corners UL, UR, DR, DL. */
  function CornerRadii(cornerRad: real, direction: seq<real>): seq<real>
  {
    seq(|direction|, k requires 0 <= k < |direction| => cornerRad * direction[k])
  }

  /** The default direction `[0, 0, 0, 0]`. */
  const NoRounding: seq<real> := [0.0, 0.0, 0.0, 0.0]

  /** The direction that rounds only corner k of the four. */
  function OnlyCorner(k: nat): (d: seq<real>)
    requires k < 4
    ensures |d| == 4
  {
    seq(4, i requires 0 <= i < 4 => if i == k then 1.0 else 0.0)
  }

  /** With the default direction every corner is square, whatever the
      scalar radius. */
  lemma DefaultDirectionIsSquare(cornerRad: real)
    ensures CornerRadii(cornerRad, NoRounding) == NoRounding
  {
  }

  /** A one-corner direction rounds exactly that corner, by the scalar
      radius, and leaves the other three square. */
  lemma OnlyCornerRounds(cornerRad: real, k: nat)
    requires k < 4
    ensures forall i :: 0 <= i < 4 ==>
              CornerRadii(cornerRad, OnlyCorner(k))[i] == (if i == k then cornerRad else 0.0)
  {
  }

  /** The radii scale linearly with the scalar and keep the direction's
      length: a zero scalar squares every corner. */
  lemma CornerRadiiScale(cornerRad: real, direction: seq<real>)
    ensures |CornerRadii(cornerRad, direction)| == |direction|
    ensures forall k :: 0 <= k < |direction| ==>
              CornerRadii(cornerRad, direction)[k] == cornerRad * direction[k]
    ensures cornerRad == 0.0 ==> forall k :: 0 <= k < |direction| ==> CornerRadii(cornerRad, direction)[k] == 0.0
  {
  }

  /** `Brane_General`: the brane's style, stored as given. */
  class BraneGeneral {
    const braneColor: Color
    const braneRadius: real
    const braneFillOpa: real
    const braneStrokeW: real
    const braneTextColor: Color

    constructor (braneColor: Color := Red, braneRadius: real := 1.0, braneFillOpa: real := 0.1,
                 braneStrokeW: real := 0.2, braneTextColor: Color := White)
      ensures this.braneColor == braneColor && this.braneRadius == braneRadius
      ensures this.braneFillOpa == braneFillOpa && this.braneStrokeW == braneStrokeW
      ensures this.braneTextColor == braneTextColor
    {
      this.braneColor := braneColor;
      this.braneFillOpa := braneFillOpa;
      this.braneRadius := braneRadius;
      this.braneTextColor := braneTextColor;
      this.braneStrokeW := braneStrokeW;
    }
  }

  /** `Vacuum_General`: the vacuum's style; `cornerRad` holds the four
      derived radii and `cr` the scalar they came from. */
  class VacuumGeneral {
    const vacuumColor: Color
    const vacuumFillOpa: real
    const vacuumStrokeW: real
    const vacuumTextColor: Color
    const cornerRad: seq<real>
    const cr: real

    constructor (vacuumColor: Color := Red, vacuumFillOpa: real := 0.2, vacuumStrokeW: real := 0.2,
                 vacuumTextColor: Color := White, cornerRad: real := 0.0,
                 cornerRadDirection: seq<real> := NoRounding)
      ensures this.vacuumColor == vacuumColor && this.vacuumFillOpa == vacuumFillOpa
      ensures this.vacuumStrokeW == vacuumStrokeW && this.vacuumTextColor == vacuumTextColor
      ensures this.cornerRad == CornerRadii(cornerRad, cornerRadDirection)
      ensures cr == cornerRad
    {
      this.vacuumColor := vacuumColor;
      this.vacuumFillOpa := vacuumFillOpa;
      this.vacuumStrokeW := vacuumStrokeW;
      this.cornerRad := CornerRadii(cornerRad, cornerRadDirection);
      this.vacuumTextColor := vacuumTextColor;
      this.cr := cornerRad;
    }
  }
}
