/** Poses and the world/local frame pipeline of a source's field.

    The angle-axis rotation and the canonical-frame field formula of a
    shape are not part of this model: they enter as function-valued
    parameters, so every result here holds for whatever those functions
    compute. */
module Frames {
  import opened Vectors
  import opened Wrappers

  /** `rot(angle, axis, v)`: `v` rotated by `angle` degrees about `axis`
      through the origin (the library's `angleAxisRotation`). */
  type Rotation = (real, Vec3, Vec3) -> Vec3

  /** `field(mag, local, dim)`: the field of a shape with magnetization
      `mag` and dimensions `dim`, centred at the origin and aligned with
      the axes, at the local point `local` (the cuboid's `Bfield_Cube`). */
  type CanonicalField = (Vec3, Vec3, seq<real>) -> Vec3

  /** Where a source is and how it is turned. */
  datatype Pose = Pose(position: Vec3, angle: real, axis: Vec3)

  /** `law(pose, angle, axis, centre)`: the pose after a source is rotated
      by `angle` about an axis parallel to `axis` through `centre`. How the
      orientations compose is decided by a base class that is not part of
      this model. */
  type RotateLaw = (Pose, real, Vec3, Vec3) -> Pose

  /** World to local: translate by `-position`, then rotate by `angle`
      about the NEGATED axis. */
  function ToLocal(rot: Rotation, pose: Pose, p: Vec3): Vec3 {
    rot(pose.angle, Neg(pose.axis), Sub(p, pose.position))
  }

  /** Local to world for a field vector: rotate by the same `angle` about
      the original axis; a field is a direction, so it is not translated. */
  function ToWorld(rot: Rotation, pose: Pose, b: Vec3): Vec3 {
    rot(pose.angle, pose.axis, b)
  }

  /** The field of a posed source at the world point `p`. */
  function WorldField(rot: Rotation, field: CanonicalField, mag: Vec3, dim: seq<real>,
                      pose: Pose, p: Vec3): Vec3
  {
    ToWorld(rot, pose, field(mag, ToLocal(rot, pose, p), dim))
  }

  /** What the pipeline needs from an unseen rotation when nothing is turned. */
  ghost predicate ZeroAngleIsIdentity(rot: Rotation) {
    forall axis: Vec3, v: Vec3 :: rot(0.0, axis, v) == v
  }

  /** What the pipeline needs from an unseen rotation for the two turns to
      be inverse: turning about `-axis` undoes turning about `axis`. */
  ghost predicate NegatedAxisUndoes(rot: Rotation, angle: real, axis: Vec3) {
    forall v: Vec3 :: rot(angle, Neg(axis), rot(angle, axis, v)) == v
  }

  /** The field depends on the observation point only through its offset
      from the source: two poses with the same orientation give the same
      field at points with the same offset. */
  lemma RelativeOffsetOnly(rot: Rotation, field: CanonicalField, mag: Vec3, dim: seq<real>,
                           pose: Pose, pose': Pose, p: Vec3, p': Vec3)
    requires pose.angle == pose'.angle && pose.axis == pose'.axis
    requires Sub(p, pose.position) == Sub(p', pose'.position)
    ensures WorldField(rot, field, mag, dim, pose, p) == WorldField(rot, field, mag, dim, pose', p')
  {
  }

  /** For an unrotated pose (angle 0), and a rotation that is the identity
      at angle 0, the pipeline is the canonical formula evaluated at the
      offset from the source's centre. */
  lemma UnrotatedPose(rot: Rotation, field: CanonicalField, mag: Vec3, dim: seq<real>,
                      pose: Pose, p: Vec3)
    requires ZeroAngleIsIdentity(rot)
    requires pose.angle == 0.0
    ensures WorldField(rot, field, mag, dim, pose, p) == field(mag, Sub(p, pose.position), dim)
  {
  }

  /** The point `q` of the source's body frame, carried into the world by
      the pose, is seen in the local frame as `q` again, so the field there
      is the canonical field at `q` turned into world axes. This is why the
      way in uses the negated axis and the way out the original one, with
      the same angle both times. */
  lemma BodyFixedPoint(rot: Rotation, field: CanonicalField, mag: Vec3, dim: seq<real>,
                       pose: Pose, q: Vec3)
    requires NegatedAxisUndoes(rot, pose.angle, pose.axis)
    ensures ToLocal(rot, pose, Add(pose.position, rot(pose.angle, pose.axis, q))) == q
    ensures WorldField(rot, field, mag, dim, pose, Add(pose.position, rot(pose.angle, pose.axis, q)))
         == rot(pose.angle, pose.axis, field(mag, q, dim))
  {
  }

  /** One rotation of a source about the centre `c` of `Some(c)`; `None`
      (the `'self.position'` placeholder) means the source's own current
      position. */
  function RotateStep(law: RotateLaw, pose: Pose, angle: real, axis: Vec3, anchor: Option<Vec3>): Pose {
    law(pose, angle, axis, anchor.GetOr(pose.position))
  }
}
