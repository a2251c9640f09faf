/** Homogeneously magnetized sources, with the rectangular `Cube` as the
    shape whose construction and field pipeline are modelled.

    A source object owns its pose (position, angle, axis), its
    magnetization and its dimensions, and is bound at construction to the
    canonical-frame formula of its shape. */
module Magnets {
  import opened Vectors
  import opened Wrappers
  import opened Frames

  /** The message the cube constructor stops the program with. */
  const BadCubeDim := "Bad dim input for cube"

  class Source {
    var position: Vec3
    var angle: real
    var axis: Vec3
    var magnetization: Vec3
    var dimension: seq<real>
    /** The closed-form field of this source's shape in its own frame. */
    const canonical: CanonicalField

    function CurrentPose(): Pose
      reads this
    {
      Pose(position, angle, axis)
    }

    /** A cube with side lengths `dim`; the pose defaults to the canonical
        one (origin, angle 0, axis z). The Python constructor checks only the
        number of side lengths, not their signs. */
    constructor Cube(bfieldCube: CanonicalField, mag: Vec3, dim: seq<real>,
                     pos: Vec3 := Zero, angle: real := 0.0, axis: Vec3 := Vec3(0.0, 0.0, 1.0))
      requires |dim| == 3
      ensures position == pos && this.angle == angle && this.axis == axis
      ensures magnetization == mag && dimension == dim && canonical == bfieldCube
    {
      position, this.angle, this.axis := pos, angle, axis;
      magnetization := mag;
      dimension := dim;
      canonical := bfieldCube;
    }

    /** Cube construction with its failure path: a `dim` with other than
        three components stops construction with `BadCubeDim`. */
    static method NewCube(bfieldCube: CanonicalField, mag: Vec3, dim: seq<real>,
                          pos: Vec3 := Zero, angle: real := 0.0, axis: Vec3 := Vec3(0.0, 0.0, 1.0))
      returns (r: Result<Source, string>)
      ensures r.Ok? <==> |dim| == 3
      ensures r.Err? ==> r.error == BadCubeDim
      ensures r.Ok? ==> fresh(r.value)
      ensures r.Ok? ==> r.value.CurrentPose() == Pose(pos, angle, axis)
      ensures r.Ok? ==> r.value.magnetization == mag && r.value.dimension == dim
      ensures r.Ok? ==> r.value.canonical == bfieldCube
    {
      if |dim| != 3 {
        return Err(BadCubeDim);
      }
      var cube := new Source.Cube(bfieldCube, mag, dim, pos, angle, axis);
      r := Ok(cube);
    }

    /** The field of this source at the world point `p`: translate, turn
        into the source's frame, evaluate the canonical formula, turn the
        result back. Being a function, it changes nothing. */
    function GetB(rot: Rotation, p: Vec3): (b: Vec3)
      reads this
      ensures ZeroAngleIsIdentity(rot) && angle == 0.0 ==>
                b == canonical(magnetization, Sub(p, position), dimension)
    {
      WorldField(rot, canonical, magnetization, dimension, CurrentPose(), p)
    }

    /** Displace the source: only its position changes, so its field is
        carried along with it. */
    method Move(d: Vec3)
      modifies this
      ensures position == Add(old(position), d)
      ensures forall rot: Rotation, p: Vec3 :: GetB(rot, Add(p, d)) == old(GetB(rot, p))
      ensures angle == old(angle) && axis == old(axis)
      ensures magnetization == old(magnetization) && dimension == old(dimension)
    {
      position := Add(position, d);
    }

    /** Rotate the source by `angle` about an axis parallel to `axis`
        through the centre `c` of `anchor == Some(c)`; the documented default
        centre is the origin. `None` stands for the `'self.position'`
        placeholder a collection forwards, and resolves to the source's own
        current position. The new pose is whatever `law` gives; shape and
        magnetization are untouched. */
    method Rotate(law: RotateLaw, angle: real, axis: Vec3, anchor: Option<Vec3> := Some(Zero))
      modifies this
      ensures CurrentPose() == RotateStep(law, old(CurrentPose()), angle, axis, anchor)
      ensures magnetization == old(magnetization) && dimension == old(dimension)
    {
      var next := RotateStep(law, CurrentPose(), angle, axis, anchor);
      position, this.angle, this.axis := next.position, next.angle, next.axis;
    }
  }
}
