# aitrack_dotnet head-tracker glue, modelled in Dafny

AITrack .NET is a webcam head tracker. A face detector and a landmark
network locate 66 facial landmarks per frame. A Perspective-n-Point solve
turns 18 of them into a head pose (pitch, yaw, roll and a translation). This
project models the deterministic logic around those numeric kernels, one
module per source file:

- `Face` (`face.dfy`): the shared per-frame state. It holds 132 landmark
  coordinates, a 3-element rotation and a 3-element translation, as arrays
  whose contents change in place.
- `Pose` (`pose.dfy`): `PositionSolver`. This covers the fixed priors and
  matrices the constructor lays out, and the gather of the 18 contour
  landmarks into the image-point buffer. It also covers the ×10 scaling of
  the translation, the sign-dependent perspective correction of yaw and
  pitch, and the hard clamp of all three angles. It proves that the 3-D
  contour is left-right symmetric.
- `Settings` (`settings.dfy`): `AppSettings.Load`, the hot reload of the
  settings. It copies every field, raises the face-detection resize target
  to at least 84 and sets the reload flag. It computes the camera-restart
  flag from six before/after comparisons.
- `Smoothing` (`smoothing.dfy`): `EAFilter`, the 0.6/0.4 exponential moving
  average over the landmarks. Its history array persists across calls. The
  module proves the first-call scaling, the fixed point and the geometric
  decay towards a constant input.
- `ImageProcessing` (`image_processing.dfy`): `NormalizeAndTranspose`. It
  normalises an interleaved height-width-channel buffer per channel and
  copies it into a planar channel-height-width buffer. It rewrites the source
  buffer on the way.
- `Debouncing` (`debouncing.dfy`): the reload `Debouncer`. It is modelled
  twice:
  - as a class with the generation counter and the disposed flag;
  - as a pure state machine over the events `Debounce`, `Fire(ticket)` and
    `Dispose`, with lemmas over whole event traces.

Floating-point values are modelled as `real`. Three foreign pieces enter as
function parameters and are otherwise unconstrained:
- the OpenCV solve followed by the Euler-angle decomposition (`solve`);
- `atan2` converted to degrees (`atan2Deg`);
- the tan/sqrt derivation of the focal lengths from a non-zero field of view
  (`fovFocalLengths`).

Some deliberate choices about what the model follows:
- The source keeps its state in static fields: the solver's priors and
  matrices, the settings, the filter's `LastValue` history, the `FaceData`
  arrays, and the image normalisation's `MeanScaling`/`StdScaling` (the last
  two become the constants `MeanScaling` and `StdScaling`, as the static
  constructor leaves them). The model makes the mutable ones fields of class
  instances. Distinctness of static data is then a plain precondition:
  `SolveRotation` requires its prior arrays to be distinct from the face's
  pose arrays, and `Filter` requires the landmarks to be a different array
  from the history.
- The prior rotation `[-1.57, -1.57, -1.57]` and the prior translation
  `[0, 0, -2]` are written only by the constructor. Each solve copies them
  into fresh matrices, so the solve never writes them back; `SolveRotation`
  keeps the priors unchanged and proves it.
- The source logs a warning when the resize target is below 84 or above
  200. `Load` returns that warning as a value.

## Model

| member | source | states |
|---|---|---|
| Face.FaceData.constructor | AITrackDotnet/FaceData.cs:7-19 | the landmark array holds 2·66 = 132 zeros; rotation and translation are 3 zeros each, in distinct arrays |
| Pose.ContourIndicesInRange | AITrackDotnet/PositionSolver.cs:14-16 | there are 18 contour indices, each a landmark below 66, so both coordinate reads stay inside the 132-element array |
| Pose.ContourLeftRightSymmetric | AITrackDotnet/PositionSolver.cs:48-70 | the mirror pairing of rows is an involution. Paired rows (0,4), (1,3), (9,13), (10,12), (14,17) and (15,16) differ only in the sign of x. Self-paired rows 2, 5, 6, 7, 8 and 11 have x = 0, and row 8 is the origin |
| Pose.ContourPoints | AITrackDotnet/PositionSolver.cs:126-133 | the 36-value image-point buffer has x of contour landmark i at 2i and y at 2i+1 |
| Pose.CorrectedRotation | AITrackDotnet/PositionSolver.cs:178-195 | roll is never corrected. Pitch (or yaw) is unchanged when the vertical (or lateral) offset is zero and atan2 of the depth and 0 is a right angle |
| Pose.CorrectionHasSignOfOffset | AITrackDotnet/PositionSolver.cs:184-191 | for an atan2 angle in [0°, 90°], the correction lies in [0, 90] for a non-negative offset and in [-90, 0] for a negative one |
| Pose.CorrectionIsOdd | AITrackDotnet/PositionSolver.cs:184-191 | negating a non-zero offset negates the correction: the sign flip happens exactly for negative offsets |
| Pose.Clip | AITrackDotnet/PositionSolver.cs:199-205 | the result lies in [lo, hi]; a value inside, bounds included, is kept; a value above hi becomes hi and one below lo becomes lo |
| Pose.ClippedRotation | AITrackDotnet/PositionSolver.cs:197-222 | pitch and yaw end in [-90, 90] and roll in [0, 180]; each angle inside its range, bounds included, is unchanged |
| Pose.ClipIsIdempotent | AITrackDotnet/PositionSolver.cs:197-222 | clipping twice equals clipping once |
| Pose.CorrectRotation | AITrackDotnet/PositionSolver.cs:178-195 | only the rotation array changes, and it becomes the corrected rotation of its old value for the current translation |
| Pose.ClipRotations | AITrackDotnet/PositionSolver.cs:197-222 | only the rotation array changes, and it becomes the clipped rotation of its old value |
| Pose.PositionSolver.constructor | AITrackDotnet/PositionSolver.cs:32-120 | the priors are [-1.57, -1.57, -1.57] and [0, 0, -2.0]. The scale diagonal is [yScale, xScale, zScale] and is never applied to the literal contour. With fov = 0 the camera matrix is [[imHeight, 0, imHeight/2], [0, imWidth, imWidth/2], [0, 0, 1]], otherwise it uses the same swapped layout with the focal lengths. The distortion is all zeros |
| Pose.PositionSolver.GatherContourPoints | AITrackDotnet/PositionSolver.cs:124-133 | the buffer equals the gathered contour points, and the landmarks and priors are unchanged |
| Pose.PositionSolver.SolveRotation | AITrackDotnet/PositionSolver.cs:122-155 | the solve is seeded with the constant priors, which stay unchanged, and the landmarks are not modified. The translation is the solver's times 10. The rotation is the solver's Euler angles, corrected and then clipped |
| Settings.ClampResizeTo | AITrackDotnet/AppSettings.cs:52-56 | the result is at least 84: a value below 84 becomes exactly 84, and any other value is kept, even above 200 |
| Settings.ResizeWarningFor | AITrackDotnet/AppSettings.cs:52-60 | a "too small" warning is given exactly when the value is below 84, and a "too large" one exactly when it is above 200 |
| Settings.ReloadSpec | AITrackDotnet/AppSettings.cs:26-71 | after a load the reload flag is set and the clamp holds. The restart flag is set iff one of the six camera settings differs from before, with the resize target compared after the clamp. A missing host name is "localhost", and every other field is the configured value |
| Settings.CameraSettingsOfReload | AITrackDotnet/AppSettings.cs:38-56 | the six camera settings after a load depend only on the configuration, not on the previous state |
| Settings.PreviewOrUdpChangeKeepsCamera | AITrackDotnet/AppSettings.cs:64-70 | a reload that changes only the preview flag or the UDP client's fields does not set the restart flag |
| Settings.ReloadTwiceKeepsCamera | AITrackDotnet/AppSettings.cs:64-70 | loading the same configuration twice leaves the restart flag false after the second load |
| Settings.ResizeBelowFloorKeepsCamera | AITrackDotnet/AppSettings.cs:52-70 | switching between two resize targets below 84 does not set the restart flag, since both become 84 |
| Settings.AppSettings.constructor | AITrackDotnet/AppSettings.cs:8-24 | before any load, every setting has its default and the host name is "localhost" |
| Settings.AppSettings.Load | AITrackDotnet/AppSettings.cs:26-71 | the new settings are the reload of the old ones by the configuration; the returned warning is the one the resize target calls for |
| Smoothing.Smooth | AITrackDotnet/EAFilter.cs:9-11 | one output per input. Each output minus its input is 0.4 times (history − input), so it is 0.6·input + 0.4·history |
| Smoothing.NextHistory | AITrackDotnet/EAFilter.cs:9-12 | the history keeps its length. Its first landmarks.Length entries become the filtered values and the rest are unchanged |
| Smoothing.FirstCallScales | AITrackDotnet/EAFilter.cs:5-11 | with the all-zero starting history, the first call scales every coordinate by exactly 0.6 |
| Smoothing.FixedPoint | AITrackDotnet/EAFilter.cs:11-12 | an input equal to the stored history is returned unchanged and leaves the history unchanged |
| Smoothing.GeometricDecay | AITrackDotnet/EAFilter.cs:11-12 | after n filterings of a constant input, the distance from the input is 0.4ⁿ times the initial distance |
| Smoothing.NeverReachesInput | AITrackDotnet/EAFilter.cs:11-12 | repeated filtering of a constant input reaches it iff the history already held it |
| Smoothing.EAFilter.constructor | AITrackDotnet/EAFilter.cs:5 | the history starts as 132 zeros |
| Smoothing.EAFilter.Filter | AITrackDotnet/EAFilter.cs:7-14 | needs landmarks no longer than the history. The landmarks become the filtered values, and the history becomes the filtered values followed by its untouched tail |
| ImageProcessing.StdScalingForChannel | AITrackDotnet/ImageProcessing.cs:24-30 | the result is non-zero exactly for channels 0-2, where it is 255·std[c], so the 0 fallback never applies to a real channel |
| ImageProcessing.MeanScalingForChannel | AITrackDotnet/ImageProcessing.cs:32-38 | for channels 0-2 the result times std[c] is mean[c]; for any other channel it is 0 |
| ImageProcessing.NormalizeIsStandardScore | AITrackDotnet/ImageProcessing.cs:8-15 | dividing by the rescaled deviation and subtracting the rescaled mean gives (v/255 − mean[c]) / std[c] |
| ImageProcessing.Wrap32 | AITrackDotnet/ImageProcessing.cs:19 | the stride is the two's-complement 32-bit value of the product: in the 32-bit range and congruent to it modulo 2³², so a product that fits is kept exactly |
| ImageProcessing.DefaultStride | AITrackDotnet/ImageProcessing.cs:17-19 | a call that relies on the default width and height of 224 works on a stride of 50176 pixels |
| ImageProcessing.HwcIndexCoversOnce | AITrackDotnet/ImageProcessing.cs:40-42 | each of the first 3·stride source positions is pixel k/3 of channel k mod 3, and no other pair, so it is transformed exactly once |
| ImageProcessing.ChwIndexInjective | AITrackDotnet/ImageProcessing.cs:40-47 | distinct (channel, pixel) pairs have distinct planar positions, all below 3·stride |
| ImageProcessing.NormalizeChannel | AITrackDotnet/ImageProcessing.cs:40-48 | for one channel, every pixel's source value is normalised in place and copied to the channel's plane. The other channels and everything from 3·stride on are unchanged |
| ImageProcessing.NormalizeAndTranspose | AITrackDotnet/ImageProcessing.cs:17-50 | dest[c·stride + p] is the normalised value of source element 3p + c, and the source holds the normalised values. Entries of both buffers from 3·stride on are untouched |
| Debouncing.CounterNeverDecreases | AITrackDotnet/Debouncer.cs:16-27 | over any trace the counter never decreases, and without a Debounce (only fires and disposal) it does not change |
| Debouncing.StaleTicketNeverRuns | AITrackDotnet/Debouncer.cs:16-23 | once a later Debounce has happened, an earlier ticket's action never runs afterwards; the actions already run stay as they were |
| Debouncing.DisposedRunsNothing | AITrackDotnet/Debouncer.cs:21-33 | after Dispose no action runs, whatever follows |
| Debouncing.OnlyLastTicketRuns | AITrackDotnet/Debouncer.cs:18-23 | with no later Debounce and no Dispose, the last ticket's action runs exactly once if its continuation fires, and no other action runs |
| Debouncing.DebouncesIssueTickets | AITrackDotnet/Debouncer.cs:14-18 | n Debounce calls raise the counter by n and schedule tickets counter+1 … counter+n |
| Debouncing.BurstRunsLastOnce | AITrackDotnet/Debouncer.cs:14-27 | a burst of n ≥ 1 notifications, followed by all their continuations firing, runs exactly one action: the last notification's |
| Debouncing.Debouncer.constructor | AITrackDotnet/Debouncer.cs:5-12 | a new debouncer has counter 0, is not disposed and has nothing scheduled |
| Debouncing.Debouncer.Debounce | AITrackDotnet/Debouncer.cs:14-18 | the counter rises by exactly 1, and the new value is the ticket of a newly scheduled continuation |
| Debouncing.Debouncer.Fire | AITrackDotnet/Debouncer.cs:18-27 | the action runs iff the ticket equals the counter and the debouncer is not disposed. The continuation is retired, and the counter does not change |
| Debouncing.Debouncer.Dispose | AITrackDotnet/Debouncer.cs:30-33 | the debouncer is disposed, and nothing else changes |

## Left out

- The OpenCV calls (`SolvePnP`, `Rodrigues`, `HConcat`, `DecomposeProjectionMatrix`, `Mat` allocation and copying) are not modelled. The solve followed by the Euler decomposition is the unconstrained parameter `solve`. The model records exactly what it is given: the contour, the image points, the camera matrix, the distortion and the priors.
- The tan/sqrt derivation of the focal lengths for a non-zero field of view is the parameter `fovFocalLengths`.
- `Math.Atan2` converted to degrees is the parameter `atan2Deg`.
- Pose.CorrectionHasSignOfOffset: atan2 is abstract, so the lemma assumes that the angle of non-negative arguments lies in [0°, 90°]. With the source's float cast and its truncated π in `ToDeg` (PositionSolver.cs:12), the computed angle for a zero offset is about 90.0000026°, slightly above 90°. The lemma and the zero-offset clauses of `Pose.CorrectedRotation` therefore hold for the program only up to this float and truncated-π error (about 2.6e-6° per axis).
- Pose.CorrectedRotation: its zero-offset clauses assume atan2 of the depth and 0 is exactly 90°; the program adds a correction of about −2.6e-6° there, as the line above explains.
- Floating point is modelled as `real`. This leaves out the float32 rounding in the filter, the normalisation and the correction, and the float/double casts in `CorrectRotation`. The ToRad/ToDeg constants are folded into `atan2Deg`.
- `IConfiguration.GetValue` binding is not modelled. The configuration arrives as a plain record, with a missing host name as `None`.
- The `Log.Warning` calls are modelled as the returned `ResizeWarning`.
- The debouncer's timer, thread pool, `Interlocked` and cancellation token are replaced by explicit sequential `Fire` and `Dispose` events. Cancellation is the disposed flag tested when a continuation fires. This covers the source's two ways of not running: a cancelled token skips the continuation, and a set flag makes the check fail. The wait time is stored but plays no part.
- The debouncer's ghost `pending` set means each scheduled continuation fires at most once. `Fire` requires its ticket to be pending.
- Debouncing.Debouncer.Debounce: the 32-bit wrap-around of `Interlocked.Increment` after 2³¹ − 1 calls is excluded by the precondition `counter < MaxInt32`.
- ImageProcessing.NormalizeAndTranspose: the OpenCV image is modelled by its float buffer, which must be a different array from the destination. The width and height keep their defaults of 224.
- `FaceData`'s face-crop fields (`FaceCropTopLeft`, `FaceCropBottomRight`, `FaceCropSize`) carry no logic in these files and are not modelled.
- The main loop (camera capture, face detection, inference, preview window), host bootstrapping and logging setup are not part of this model.
