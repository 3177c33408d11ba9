/** Shared per-frame face state: the landmark coordinates written by the
    landmark decoder and read by the pose solver, and the pose the solver
    writes. The three arrays are allocated once and only their contents
    change afterwards. */
module Face {

  /** Number of facial landmarks the network reports. */
  const LandmarksCount: nat := 66

  /** Landmarks are stored flat as [x0, y0, x1, y1, ...]. */
  const LandmarkCoordsLength: nat := 2 * LandmarksCount

  class FaceData {
    /** Landmark positions, two reals per landmark. */
    const landmarkCoords: array<real>
    /** Rotation as [pitch, yaw, roll], in degrees. */
    const rotation: array<real>
    /** Translation as [x, y, z], in centimetres. */
    const translation: array<real>

    ghost predicate Valid()
      reads this
    {
      landmarkCoords.Length == LandmarkCoordsLength &&
      rotation.Length == 3 &&
      translation.Length == 3 &&
      rotation != translation
    }

    /** All three arrays start zero-filled, as fresh .NET arrays do. */
    constructor ()
      ensures Valid()
      ensures fresh(landmarkCoords) && fresh(rotation) && fresh(translation)
      ensures forall k :: 0 <= k < landmarkCoords.Length ==> landmarkCoords[k] == 0.0
      ensures rotation[..] == [0.0, 0.0, 0.0] && translation[..] == [0.0, 0.0, 0.0]
    {
      landmarkCoords := new real[LandmarkCoordsLength](_ => 0.0);
      rotation := new real[3](_ => 0.0);
      translation := new real[3](_ => 0.0);
    }
  }
}
