/** Head-pose post-processing around an external Perspective-n-Point solve:
    gathering the 18 contour landmarks, scaling the translation to
    centimetres, the perspective correction of yaw and pitch and the clamp of
    all three angles. The solve and the Euler-angle decomposition are foreign
    calls and enter as a function parameter; so does atan2. */
module Pose {
  import opened Face

  const NbContourPointsBase: nat := 18

  /** The landmarks (of 66) that make up the eyebrow, eye, nose and jaw contour. */
  const ContourIndices: seq<int> := [0, 1, 8, 15, 16, 27, 28, 29, 30, 31, 32, 33, 34, 35, 36, 39, 42, 45]

  const PriorPitch: real := -1.57
  const PriorYaw: real := -1.57
  const PriorDistance: real := -2.0

  /** The extrinsic guess every solve is seeded with. */
  const PriorRotation: seq<real> := [PriorPitch, PriorYaw, -1.57]
  const PriorTranslation: seq<real> := [0.0, 0.0, PriorDistance]

  /** The canonical face: 18 points (x, y, z), one per contour landmark. */
  const Contour3d: seq<Vec3> := [
    Vec3(0.45517698, -0.30089578, 0.76442945),
    Vec3(0.44899884, -0.16699584, 0.765143),
    Vec3(0.0, 0.621079, 0.28729478),
    Vec3(-0.44899884, -0.16699584, 0.765143),
    Vec3(-0.45517698, -0.30089578, 0.76442945),
    Vec3(0.0, -0.2933326, 0.1375821),
    Vec3(0.0, -0.1948287, 0.06915811),
    Vec3(0.0, -0.10384402, 0.00915182),
    Vec3(0.0, 0.0, 0.0),
    Vec3(0.08062635, 0.04127607, 0.13416104),
    Vec3(0.04643935, 0.05767522, 0.10299063),
    Vec3(0.0, 0.06875312, 0.09054535),
    Vec3(-0.04643935, 0.05767522, 0.10299063),
    Vec3(-0.08062635, 0.04127607, 0.13416104),
    Vec3(0.31590518, -0.2983375, 0.2851074),
    Vec3(0.13122973, -0.28444737, 0.23423915),
    Vec3(-0.13122973, -0.28444737, 0.23423915),
    Vec3(-0.31590518, -0.2983375, 0.2851074)
  ]

  /** For each row of the contour, the row that is its mirror image across
      x = 0: pairs (0,4), (1,3), (9,13), (10,12), (14,17), (15,16); the
      mid-line rows 2, 5, 6, 7, 8 and 11 are their own mirror image. */
  const MirrorRow: seq<int> := [4, 3, 2, 1, 0, 5, 6, 7, 8, 13, 12, 11, 10, 9, 17, 16, 15, 14]

  datatype Vec3 = Vec3(x: real, y: real, z: real) {
    function At(i: int): real
      requires 0 <= i < 3
    {
      if i == 0 then x else if i == 1 then y else z
    }

    function Seq(): (s: seq<real>)
      ensures |s| == 3 && forall i :: 0 <= i < 3 ==> s[i] == At(i)
    {
      [x, y, z]
    }
  }

  function VecOf(s: seq<real>): Vec3
    requires |s| == 3
  {
    Vec3(s[0], s[1], s[2])
  }

  /** Everything handed to the external solve. */
  datatype PnpInput = PnpInput(
    objectPoints: seq<Vec3>,
    imagePoints: seq<real>,
    cameraMatrix: seq<real>,
    distortion: seq<real>,
    rotationGuess: seq<real>,
    translationGuess: seq<real>)

  /** What the solve followed by the projection-matrix decomposition hands
      back: Euler angles [pitch, yaw, roll] in degrees and the translation. */
  datatype PnpSolution = PnpSolution(eulerAngles: Vec3, translation: Vec3)

  function Abs(v: real): real
  {
    if v < 0.0 then -v else v
  }

  ghost predicate Mirrored(a: Vec3, b: Vec3)
  {
    b.x == -a.x && b.y == a.y && b.z == a.z
  }

  lemma ContourIndicesInRange()
    ensures |ContourIndices| == NbContourPointsBase
    ensures forall i :: 0 <= i < |ContourIndices| ==>
      0 <= ContourIndices[i] < LandmarksCount && 2 * ContourIndices[i] + 1 < LandmarkCoordsLength
  {
  }

  /** The face model is left-right symmetric: mirror rows differ only in the
      sign of x, so a row that is its own mirror image has x = 0; row 8 (the
      nose tip) is the origin. */
  lemma ContourLeftRightSymmetric()
    ensures |Contour3d| == NbContourPointsBase && |MirrorRow| == NbContourPointsBase
    ensures forall r :: 0 <= r < NbContourPointsBase ==>
      0 <= MirrorRow[r] < NbContourPointsBase && MirrorRow[MirrorRow[r]] == r &&
      Mirrored(Contour3d[r], Contour3d[MirrorRow[r]])
    ensures forall r :: 0 <= r < NbContourPointsBase && MirrorRow[r] == r ==> Contour3d[r].x == 0.0
    ensures Contour3d[8] == Vec3(0.0, 0.0, 0.0)
  {
    forall r | 0 <= r < NbContourPointsBase
      ensures 0 <= MirrorRow[r] < NbContourPointsBase && MirrorRow[MirrorRow[r]] == r
      ensures Mirrored(Contour3d[r], Contour3d[MirrorRow[r]])
    {
      RowIsMirrored(r);
    }
  }

  /** One row at a time: the branches below split the 18 rows into single
      cases so that each mirror fact is checked against a literal row. */
  lemma RowIsMirrored(r: int)
    requires 0 <= r < NbContourPointsBase
    ensures 0 <= MirrorRow[r] < NbContourPointsBase && MirrorRow[MirrorRow[r]] == r
    ensures Mirrored(Contour3d[r], Contour3d[MirrorRow[r]])
  {
    if r < 9 {
      if r < 3 {
        if r == 0 {} else if r == 1 {} else {}
      } else if r < 6 {
        if r == 3 {} else if r == 4 {} else {}
      } else {
        if r == 6 {} else if r == 7 {} else {}
      }
    } else {
      if r < 12 {
        if r == 9 {} else if r == 10 {} else {}
      } else if r < 15 {
        if r == 12 {} else if r == 13 {} else {}
      } else {
        if r == 15 {} else if r == 16 {} else {}
      }
    }
  }

  /** The 36-value image-point buffer: for contour point i the x and y of
      landmark ContourIndices[i], interleaved. */
  function ContourPoints(landmarks: seq<real>): (points: seq<real>)
    requires |landmarks| == LandmarkCoordsLength
    ensures |points| == 2 * NbContourPointsBase
    ensures forall i :: 0 <= i < NbContourPointsBase ==>
      points[2 * i] == landmarks[2 * ContourIndices[i]] &&
      points[2 * i + 1] == landmarks[2 * ContourIndices[i] + 1]
  {
    ContourIndicesInRange();
    seq(2 * NbContourPointsBase, k requires 0 <= k < 2 * NbContourPointsBase =>
      landmarks[2 * ContourIndices[k / 2] + k % 2])
  }

  /** The solver reports metres-like units; the source scales by 10. */
  function ToCentimetres(t: Vec3): Vec3
  {
    Vec3(t.x * 10.0, t.y * 10.0, t.z * 10.0)
  }

  /** Perspective correction for one axis: 90 degrees minus the angle at
      which the offset is seen from the given depth, negated when the offset
      is negative. atan2Deg stands for atan2 converted to degrees. */
  function Correction(offset: real, distance: real, atan2Deg: (real, real) -> real): real
  {
    var magnitude := 90.0 - atan2Deg(distance, Abs(offset));
    if offset < 0.0 then -magnitude else magnitude
  }

  /** For the angle atan2 returns on non-negative arguments (between 0 and
      90 degrees) the correction has the sign of the offset and is at most a
      right angle. */
  lemma CorrectionHasSignOfOffset(offset: real, distance: real, atan2Deg: (real, real) -> real)
    requires 0.0 <= atan2Deg(Abs(distance), Abs(offset)) <= 90.0
    ensures offset >= 0.0 ==> 0.0 <= Correction(offset, Abs(distance), atan2Deg) <= 90.0
    ensures offset < 0.0 ==> -90.0 <= Correction(offset, Abs(distance), atan2Deg) <= 0.0
  {
  }

  /** Mirroring the offset mirrors the correction. */
  lemma CorrectionIsOdd(offset: real, distance: real, atan2Deg: (real, real) -> real)
    requires offset != 0.0
    ensures Correction(-offset, distance, atan2Deg) == -Correction(offset, distance, atan2Deg)
  {
  }

  /** Yaw ([1]) is corrected from the lateral offset translation[1], pitch
      ([0]) from the vertical offset translation[0]; roll is kept. */
  function CorrectedRotation(rotation: Vec3, translation: Vec3, atan2Deg: (real, real) -> real): (r: Vec3)
    ensures r.z == rotation.z
    ensures translation.x == 0.0 && atan2Deg(Abs(translation.z), 0.0) == 90.0 ==> r.x == rotation.x
    ensures translation.y == 0.0 && atan2Deg(Abs(translation.z), 0.0) == 90.0 ==> r.y == rotation.y
  {
    var distance := Abs(translation.z);
    Vec3(rotation.x + Correction(translation.x, distance, atan2Deg),
         rotation.y + Correction(translation.y, distance, atan2Deg),
         rotation.z)
  }

  /** Hard clip of an angle to [lo, hi], with no wrap-around. */
  function Clip(v: real, lo: real, hi: real): (r: real)
    requires lo <= hi
    ensures lo <= r <= hi
    ensures lo <= v <= hi ==> r == v
    ensures v > hi ==> r == hi
    ensures v < lo ==> r == lo
  {
    if v >= hi then hi else if v <= lo then lo else v
  }

  /** Pitch and yaw to [-90, 90], roll to [0, 180]. */
  function ClippedRotation(rotation: Vec3): (r: Vec3)
    ensures -90.0 <= r.x <= 90.0 && -90.0 <= r.y <= 90.0 && 0.0 <= r.z <= 180.0
    ensures -90.0 <= rotation.x <= 90.0 ==> r.x == rotation.x
    ensures -90.0 <= rotation.y <= 90.0 ==> r.y == rotation.y
    ensures 0.0 <= rotation.z <= 180.0 ==> r.z == rotation.z
  {
    Vec3(Clip(rotation.x, -90.0, 90.0), Clip(rotation.y, -90.0, 90.0), Clip(rotation.z, 0.0, 180.0))
  }

  lemma {:induction false} ClipIsIdempotent(rotation: Vec3)
    ensures ClippedRotation(ClippedRotation(rotation)) == ClippedRotation(rotation)
  {
  }

  /** The rotation a solve leaves in the face state. */
  function SolvedRotation(solution: PnpSolution, atan2Deg: (real, real) -> real): Vec3
  {
    ClippedRotation(CorrectedRotation(solution.eulerAngles, ToCentimetres(solution.translation), atan2Deg))
  }

  /** Camera matrix layout of the source: the height sits in the first row
      and the width in the second. */
  function CameraMatrixOf(focalLengthWidth: real, focalLengthHeight: real, imWidth: int, imHeight: int): seq<real>
  {
    [focalLengthHeight, 0.0, imHeight as real / 2.0,
     0.0, focalLengthWidth, imWidth as real / 2.0,
     0.0, 0.0, 1.0]
  }

  /** Writes the correction into rotation[0] (pitch) and rotation[1] (yaw). */
  method CorrectRotation(face: FaceData, atan2Deg: (real, real) -> real)
    requires face.Valid()
    modifies face.rotation
    ensures face.rotation[..] == CorrectedRotation(VecOf(old(face.rotation[..])), VecOf(face.translation[..]), atan2Deg).Seq()
  {
    var distance := Abs(face.translation[2]);
    var lateralOffset := face.translation[1];
    var verticalOffset := face.translation[0];

    var correctionYaw := 90.0 - atan2Deg(distance, Abs(lateralOffset));
    var correctionPitch := 90.0 - atan2Deg(distance, Abs(verticalOffset));

    if lateralOffset < 0.0 {
      correctionYaw := -correctionYaw;
    }
    if verticalOffset < 0.0 {
      correctionPitch := -correctionPitch;
    }

    face.rotation[1] := face.rotation[1] + correctionYaw;
    face.rotation[0] := face.rotation[0] + correctionPitch;
  }

  method ClipRotations(face: FaceData)
    requires face.Valid()
    modifies face.rotation
    ensures face.rotation[..] == ClippedRotation(VecOf(old(face.rotation[..]))).Seq()
  {
    var yaw := face.rotation[1];
    face.rotation[1] := if yaw >= 90.0 then 90.0 else if yaw <= -90.0 then -90.0 else yaw;
    var pitch := face.rotation[0];
    face.rotation[0] := if pitch >= 90.0 then 90.0 else if pitch <= -90.0 then -90.0 else pitch;
    var roll := face.rotation[2];
    face.rotation[2] := if roll >= 180.0 then 180.0 else if roll <= 0.0 then 0.0 else roll;
  }

  class PositionSolver {
    /** Prior rotation and translation: the extrinsic guess. */
    const rv: array<real>
    const tv: array<real>

    const head3dScale: seq<real>
    const mat3dContour: seq<Vec3>
    const cameraMatrix: seq<real>
    const cameraDistortion: seq<real>

    /** The 18 image points, x and y interleaved. */
    const landmarkPointsBuffer: array<real>

    ghost predicate Valid()
      reads this, rv, tv
    {
      rv.Length == 3 && tv.Length == 3 && rv != tv &&
      landmarkPointsBuffer.Length == 2 * NbContourPointsBase &&
      rv[..] == PriorRotation && tv[..] == PriorTranslation
    }

    /** fovFocalLengths stands for the tan/sqrt derivation of the focal
        lengths (width, height) from a non-zero diagonal field of view. */
    constructor (imWidth: int, imHeight: int, fov: real, xScale: real, yScale: real, zScale: real,
                 fovFocalLengths: (int, int, real) -> (real, real))
      ensures Valid()
      ensures fresh(rv) && fresh(tv) && fresh(landmarkPointsBuffer)
      ensures head3dScale == [yScale, 0.0, 0.0, 0.0, xScale, 0.0, 0.0, 0.0, zScale]
      ensures mat3dContour == Contour3d
      ensures fov == 0.0 ==>
                cameraMatrix == [imHeight as real, 0.0, imHeight as real / 2.0,
                                 0.0, imWidth as real, imWidth as real / 2.0,
                                 0.0, 0.0, 1.0]
      ensures fov != 0.0 ==>
                var focal := fovFocalLengths(imWidth, imHeight, fov);
                cameraMatrix == CameraMatrixOf(focal.0, focal.1, imWidth, imHeight)
      ensures cameraDistortion == [0.0, 0.0, 0.0, 0.0]
    {
      var priorRotation := new real[3](_ => 0.0);
      var priorTranslation := new real[3](_ => 0.0);
      priorRotation[0] := PriorPitch;
      priorRotation[1] := PriorYaw;
      priorRotation[2] := -1.57;
      priorTranslation[2] := PriorDistance;
      rv := priorRotation;
      tv := priorTranslation;

      head3dScale := [yScale, 0.0, 0.0, 0.0, xScale, 0.0, 0.0, 0.0, zScale];
      // The scale is never applied to the contour.
      mat3dContour := Contour3d;

      var focalLengthWidth: real := imWidth as real;
      var focalLengthHeight: real := imHeight as real;
      if fov != 0.0 {
        var focal := fovFocalLengths(imWidth, imHeight, fov);
        focalLengthWidth := focal.0;
        focalLengthHeight := focal.1;
      }
      cameraMatrix := CameraMatrixOf(focalLengthWidth, focalLengthHeight, imWidth, imHeight);
      cameraDistortion := [0.0, 0.0, 0.0, 0.0];
      landmarkPointsBuffer := new real[2 * NbContourPointsBase](_ => 0.0);
    }

    /** The axis-major gather loop: first every x, then every y. */
    method GatherContourPoints(landmarks: array<real>)
      requires Valid() && landmarks.Length == LandmarkCoordsLength
      modifies landmarkPointsBuffer
      ensures Valid()
      ensures landmarkPointsBuffer[..] == ContourPoints(landmarks[..])
      ensures landmarks[..] == old(landmarks[..])
    {
      ContourIndicesInRange();
      for j := 0 to 2
        invariant j >= 1 ==> forall i :: 0 <= i < NbContourPointsBase ==>
          landmarkPointsBuffer[2 * i] == landmarks[2 * ContourIndices[i]]
        invariant j >= 2 ==> forall i :: 0 <= i < NbContourPointsBase ==>
          landmarkPointsBuffer[2 * i + 1] == landmarks[2 * ContourIndices[i] + 1]
      {
        for i := 0 to |ContourIndices|
          invariant j >= 1 ==> forall k :: 0 <= k < NbContourPointsBase ==>
            landmarkPointsBuffer[2 * k] == landmarks[2 * ContourIndices[k]]
          invariant forall k :: 0 <= k < i ==>
            landmarkPointsBuffer[2 * k + j] == landmarks[2 * ContourIndices[k] + j]
        {
          var contourIdx := ContourIndices[i];
          landmarkPointsBuffer[2 * i + j] := landmarks[2 * contourIdx + j];
        }
      }
      assert landmarkPointsBuffer[..] == ContourPoints(landmarks[..]) by {
        var points := ContourPoints(landmarks[..]);
        forall k | 0 <= k < 2 * NbContourPointsBase
          ensures landmarkPointsBuffer[k] == points[k]
        {
          var i := k / 2;
          if k % 2 == 0 {
            assert k == 2 * i;
          } else {
            assert k == 2 * i + 1;
          }
        }
      }
    }

    /** One solve. The solve works on fresh copies of the priors, so rv and
        tv keep the constructor's values and every solve is seeded with the
        same guess. */
    method SolveRotation(face: FaceData, solve: PnpInput -> PnpSolution, atan2Deg: (real, real) -> real)
      requires Valid() && face.Valid()
      requires {rv, tv} !! {face.rotation, face.translation}
      modifies landmarkPointsBuffer, face.rotation, face.translation
      ensures Valid()
      ensures rv[..] == PriorRotation && tv[..] == PriorTranslation
      ensures face.landmarkCoords[..] == old(face.landmarkCoords[..])
      ensures landmarkPointsBuffer[..] == ContourPoints(face.landmarkCoords[..])
      ensures var solution := solve(PnpInput(mat3dContour, ContourPoints(face.landmarkCoords[..]), cameraMatrix,
                                             cameraDistortion, PriorRotation, PriorTranslation));
        face.translation[..] == ToCentimetres(solution.translation).Seq() &&
        face.rotation[..] == SolvedRotation(solution, atan2Deg).Seq()
    {
      GatherContourPoints(face.landmarkCoords);

      var solution := solve(PnpInput(mat3dContour, landmarkPointsBuffer[..], cameraMatrix, cameraDistortion, rv[..], tv[..]));

      for i := 0 to 3
        modifies face.rotation, face.translation
        invariant forall k :: 0 <= k < i ==>
          face.rotation[k] == solution.eulerAngles.At(k) &&
          face.translation[k] == solution.translation.At(k) * 10.0
      {
        face.rotation[i] := solution.eulerAngles.At(i);
        face.translation[i] := solution.translation.At(i) * 10.0; // scale to centimetres
      }
      assert face.translation[..] == ToCentimetres(solution.translation).Seq();
      assert VecOf(face.rotation[..]) == solution.eulerAngles;

      CorrectRotation(face, atan2Deg);
      ClipRotations(face);
    }
  }
}
