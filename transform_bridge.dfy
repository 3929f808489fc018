/** The component mapping between the simulation library's pose (a position vector and a
    quaternion) and the engine's transform. Components are copied, never computed with, so
    they are modelled as reals on which no arithmetic is done. */
module TransformBridge {

  /** The engine's position vector. */
  datatype Vec3 = Vec3(x: real, y: real, z: real)

  /** The engine's quaternion, and the rotation that holds it. */
  datatype Quaternion = Quaternion(x: real, y: real, z: real, w: real)
  datatype Rotation = Rotation(quaternion: Quaternion)

  /** The engine's transform: the two parts the physics layer reads and writes. */
  datatype STransform = STransform(position: Vec3, rotation: Rotation)

  /** The simulation library's position vector and quaternion, with its accessors' names. */
  datatype RVec3 = RVec3(x: real, y: real, z: real)
  datatype Quat = Quat(x: real, y: real, z: real, w: real)

  const RVec3Zero: RVec3 := RVec3(0.0, 0.0, 0.0)
  const QuatIdentity: Quat := Quat(0.0, 0.0, 0.0, 1.0)

  /** Reading a body's pose into a transform: each component goes to its namesake. */
  function FromJolt(position: RVec3, rotation: Quat): STransform {
    STransform(
      Vec3(position.x, position.y, position.z),
      Rotation(Quaternion(rotation.x, rotation.y, rotation.z, rotation.w)))
  }

  /** The position handed to the library when a transform is written. */
  function ToJoltPosition(trans: STransform): RVec3 {
    RVec3(trans.position.x, trans.position.y, trans.position.z)
  }

  /** The quaternion handed to the library when a transform is written: it is built from the
      engine's components in the order x, y, w, z, so the library's z receives the engine's w
      and the library's w receives the engine's z. */
  function ToJoltRotation(trans: STransform): Quat {
    var q := trans.rotation.quaternion;
    Quat(q.x, q.y, q.w, q.z)
  }

  /** The engine transform with its quaternion's z and w exchanged. */
  function SwapZW(trans: STransform): STransform {
    var q := trans.rotation.quaternion;
    trans.(rotation := Rotation(Quaternion(q.x, q.y, q.w, q.z)))
  }

  /** Reading a pose loses nothing: every component of the library's pose can be recovered. */
  lemma FromJoltInjective(p1: RVec3, r1: Quat, p2: RVec3, r2: Quat)
    requires FromJolt(p1, r1) == FromJolt(p2, r2)
    ensures p1 == p2 && r1 == r2
  {
  }

  /** Writing a transform and reading it back keeps the position and exchanges the
      rotation's z and w. */
  lemma SetThenGet(trans: STransform)
    ensures FromJolt(ToJoltPosition(trans), ToJoltRotation(trans)) == SwapZW(trans)
    ensures FromJolt(ToJoltPosition(trans), ToJoltRotation(trans)).position == trans.position
  {
  }

  /** Reading a pose and writing it back keeps the position and exchanges the library
      quaternion's z and w. */
  lemma GetThenSet(position: RVec3, rotation: Quat)
    ensures ToJoltPosition(FromJolt(position, rotation)) == position
    ensures ToJoltRotation(FromJolt(position, rotation)) == Quat(rotation.x, rotation.y, rotation.w, rotation.z)
  {
  }

  /** Writing then reading returns the transform exactly when its quaternion's z equals its w. */
  lemma SetThenGetIdentityIff(trans: STransform)
    ensures FromJolt(ToJoltPosition(trans), ToJoltRotation(trans)) == trans
        <==> trans.rotation.quaternion.z == trans.rotation.quaternion.w
  {
  }

  /** Writing then reading is not the identity: the identity rotation itself comes back
      with z = 1 and w = 0. */
  lemma SetThenGetNotIdentity()
    ensures exists trans: STransform :: FromJolt(ToJoltPosition(trans), ToJoltRotation(trans)) != trans
  {
    var identity := STransform(Vec3(0.0, 0.0, 0.0), Rotation(Quaternion(0.0, 0.0, 0.0, 1.0)));
    assert FromJolt(ToJoltPosition(identity), ToJoltRotation(identity)).rotation.quaternion.w == 0.0;
  }

  /** Two write-then-read round trips give the transform back. */
  lemma SetThenGetTwice(trans: STransform)
    ensures var once := FromJolt(ToJoltPosition(trans), ToJoltRotation(trans));
            FromJolt(ToJoltPosition(once), ToJoltRotation(once)) == trans
  {
  }
}
