/** Process-wide settings and their hot reload. A reload copies every field
    from the configuration source, raises the face-detection resize target to
    its floor of 84, and works out whether the camera has to be restarted by
    comparing six fields with their values before the reload. The
    configuration binding itself is not modelled: the source hands over a
    plain record. */
module Settings {

  datatype Option<T> = None | Some(value: T)

  /** Smallest face-detection input size the detector accepts. */
  const MinResizeTo: int := 84
  /** Above this size a performance warning is logged. */
  const LargeResizeTo: int := 200
  const DefaultHostName: string := "localhost"

  /** The values the configuration source holds, one per key. A missing
      host name is None. */
  datatype RawConfig = RawConfig(
    preview: bool,
    faceDetectionResizeTo: int,
    landmarkDetectionNoiseFilter: bool,
    openTrackUdpClientEnabled: bool,
    openTrackUdpClientHostName: Option<string>,
    openTrackUdpClientPort: int,
    cameraWidth: int,
    cameraHeight: int,
    cameraFps: int,
    cameraAutoFocus: bool)

  /** Every setting, plus the two flags a reload derives. */
  datatype Snapshot = Snapshot(
    preview: bool,
    faceDetectionResizeTo: int,
    landmarkDetectionNoiseFilter: bool,
    openTrackUdpClientEnabled: bool,
    openTrackUdpClientHostName: string,
    openTrackUdpClientPort: int,
    cameraWidth: int,
    cameraHeight: int,
    cameraFps: int,
    cameraAutoFocus: bool,
    needsCameraRestart: bool,
    wasReloaded: bool)

  /** The warning a reload logs about the resize target, if any. */
  datatype ResizeWarning = NoWarning | TooSmall | TooLarge

  /** The six settings whose change requires reopening the camera and the
      detector. */
  datatype CameraSettings = CameraSettings(
    resizeTo: int, noiseFilter: bool, width: int, height: int, fps: int, autoFocus: bool)

  function CameraSettingsOf(s: Snapshot): CameraSettings
  {
    CameraSettings(s.faceDetectionResizeTo, s.landmarkDetectionNoiseFilter,
                   s.cameraWidth, s.cameraHeight, s.cameraFps, s.cameraAutoFocus)
  }

  /** The settings before any load: .NET defaults, and "localhost". */
  const InitialSnapshot: Snapshot :=
    Snapshot(false, 0, false, false, DefaultHostName, 0, 0, 0, 0, false, false, false)

  function ClampResizeTo(raw: int): (r: int)
    ensures r >= MinResizeTo
    ensures raw < MinResizeTo ==> r == MinResizeTo
    ensures raw >= MinResizeTo ==> r == raw
  {
    if raw < MinResizeTo then MinResizeTo else raw
  }

  function ResizeWarningFor(raw: int): (w: ResizeWarning)
    ensures w == TooSmall <==> raw < MinResizeTo
    ensures w == TooLarge <==> raw > LargeResizeTo
  {
    if raw < MinResizeTo then TooSmall
    else if raw > LargeResizeTo then TooLarge
    else NoWarning
  }

  /** A missing host name falls back to "localhost". */
  function HostNameOrDefault(hostName: Option<string>): string
  {
    match hostName
    case Some(h) => h
    case None => DefaultHostName
  }

  /** The snapshot a load of raw produces after prev. */
  function Reload(prev: Snapshot, raw: RawConfig): Snapshot
  {
    var resizeTo := ClampResizeTo(raw.faceDetectionResizeTo);
    var needsCameraRestart :=
      prev.faceDetectionResizeTo != resizeTo ||
      prev.landmarkDetectionNoiseFilter != raw.landmarkDetectionNoiseFilter ||
      prev.cameraWidth != raw.cameraWidth ||
      prev.cameraHeight != raw.cameraHeight ||
      prev.cameraFps != raw.cameraFps ||
      prev.cameraAutoFocus != raw.cameraAutoFocus;
    Snapshot(raw.preview, resizeTo, raw.landmarkDetectionNoiseFilter,
             raw.openTrackUdpClientEnabled, HostNameOrDefault(raw.openTrackUdpClientHostName),
             raw.openTrackUdpClientPort, raw.cameraWidth, raw.cameraHeight, raw.cameraFps,
             raw.cameraAutoFocus, needsCameraRestart, true)
  }

  /** After a load: the resize target is at least 84 (raised to exactly 84
      from below, kept otherwise, even above 200), the reload flag is set,
      the camera must restart exactly when one of the six camera settings
      changed, a missing host name is "localhost" and every other field is
      the configured value. */
  lemma ReloadSpec(prev: Snapshot, raw: RawConfig)
    ensures var next := Reload(prev, raw);
      && next.wasReloaded
      && next.faceDetectionResizeTo >= MinResizeTo
      && (raw.faceDetectionResizeTo < MinResizeTo ==> next.faceDetectionResizeTo == MinResizeTo)
      && (raw.faceDetectionResizeTo >= MinResizeTo ==> next.faceDetectionResizeTo == raw.faceDetectionResizeTo)
      && (next.needsCameraRestart <==> CameraSettingsOf(next) != CameraSettingsOf(prev))
      && (raw.openTrackUdpClientHostName.None? ==> next.openTrackUdpClientHostName == DefaultHostName)
      && (raw.openTrackUdpClientHostName.Some? ==>
            next.openTrackUdpClientHostName == raw.openTrackUdpClientHostName.value)
      && next.preview == raw.preview
      && next.landmarkDetectionNoiseFilter == raw.landmarkDetectionNoiseFilter
      && next.openTrackUdpClientEnabled == raw.openTrackUdpClientEnabled
      && next.openTrackUdpClientPort == raw.openTrackUdpClientPort
      && next.cameraWidth == raw.cameraWidth && next.cameraHeight == raw.cameraHeight
      && next.cameraFps == raw.cameraFps && next.cameraAutoFocus == raw.cameraAutoFocus
  {
  }

  /** The camera-affecting part of a reload depends only on the raw record. */
  lemma CameraSettingsOfReload(prev: Snapshot, raw: RawConfig)
    ensures CameraSettingsOf(Reload(prev, raw)) ==
      CameraSettings(ClampResizeTo(raw.faceDetectionResizeTo), raw.landmarkDetectionNoiseFilter,
                     raw.cameraWidth, raw.cameraHeight, raw.cameraFps, raw.cameraAutoFocus)
  {
  }

  /** raw2 differs from raw1 at most in the preview flag and the UDP
      client's fields. */
  ghost predicate DiffersOnlyInPreviewOrUdp(raw1: RawConfig, raw2: RawConfig)
  {
    raw2.faceDetectionResizeTo == raw1.faceDetectionResizeTo &&
    raw2.landmarkDetectionNoiseFilter == raw1.landmarkDetectionNoiseFilter &&
    raw2.cameraWidth == raw1.cameraWidth &&
    raw2.cameraHeight == raw1.cameraHeight &&
    raw2.cameraFps == raw1.cameraFps &&
    raw2.cameraAutoFocus == raw1.cameraAutoFocus
  }

  /** Editing only the preview flag or the UDP target never restarts the camera. */
  lemma PreviewOrUdpChangeKeepsCamera(prev: Snapshot, raw1: RawConfig, raw2: RawConfig)
    requires DiffersOnlyInPreviewOrUdp(raw1, raw2)
    ensures !Reload(Reload(prev, raw1), raw2).needsCameraRestart
  {
    CameraSettingsOfReload(prev, raw1);
    CameraSettingsOfReload(Reload(prev, raw1), raw2);
  }

  /** Loading the same configuration twice restarts the camera at most once. */
  lemma ReloadTwiceKeepsCamera(prev: Snapshot, raw: RawConfig)
    ensures !Reload(Reload(prev, raw), raw).needsCameraRestart
  {
    PreviewOrUdpChangeKeepsCamera(prev, raw, raw);
  }

  /** Two resize targets below the floor both become 84, so switching
      between them does not restart the camera. */
  lemma ResizeBelowFloorKeepsCamera(prev: Snapshot, raw: RawConfig, otherResizeTo: int)
    requires raw.faceDetectionResizeTo < MinResizeTo && otherResizeTo < MinResizeTo
    ensures !Reload(Reload(prev, raw), raw.(faceDetectionResizeTo := otherResizeTo)).needsCameraRestart
  {
    CameraSettingsOfReload(prev, raw);
    CameraSettingsOfReload(Reload(prev, raw), raw.(faceDetectionResizeTo := otherResizeTo));
  }

  /** The static settings: one field per property, updated in place by Load. */
  class AppSettings {
    var preview: bool
    var faceDetectionResizeTo: int
    var landmarkDetectionNoiseFilter: bool
    var openTrackUdpClientEnabled: bool
    var openTrackUdpClientHostName: string
    var openTrackUdpClientPort: int
    var cameraWidth: int
    var cameraHeight: int
    var cameraFps: int
    var cameraAutoFocus: bool
    var needsCameraRestart: bool
    var wasReloaded: bool

    function Current(): Snapshot
      reads this
    {
      Snapshot(preview, faceDetectionResizeTo, landmarkDetectionNoiseFilter,
               openTrackUdpClientEnabled, openTrackUdpClientHostName, openTrackUdpClientPort,
               cameraWidth, cameraHeight, cameraFps, cameraAutoFocus,
               needsCameraRestart, wasReloaded)
    }

    constructor ()
      ensures Current() == InitialSnapshot
    {
      preview := false;
      faceDetectionResizeTo := 0;
      landmarkDetectionNoiseFilter := false;
      openTrackUdpClientEnabled := false;
      openTrackUdpClientHostName := DefaultHostName;
      openTrackUdpClientPort := 0;
      cameraWidth := 0;
      cameraHeight := 0;
      cameraFps := 0;
      cameraAutoFocus := false;
      needsCameraRestart := false;
      wasReloaded := false;
    }

    /** Loads raw and returns the warning logged about the resize target. */
    method Load(raw: RawConfig) returns (warning: ResizeWarning)
      modifies this
      ensures Current() == Reload(old(Current()), raw)
      ensures warning == ResizeWarningFor(raw.faceDetectionResizeTo)
    {
      var previousFaceDetectionResizeTo := faceDetectionResizeTo;
      var previousLandmarkDetectionNoiseFilter := landmarkDetectionNoiseFilter;
      var previousCameraWidth := cameraWidth;
      var previousCameraHeight := cameraHeight;
      var previousCameraFps := cameraFps;
      var previousCameraAutoFocus := cameraAutoFocus;

      preview := raw.preview;
      faceDetectionResizeTo := raw.faceDetectionResizeTo;
      landmarkDetectionNoiseFilter := raw.landmarkDetectionNoiseFilter;
      openTrackUdpClientEnabled := raw.openTrackUdpClientEnabled;
      openTrackUdpClientHostName := HostNameOrDefault(raw.openTrackUdpClientHostName);
      openTrackUdpClientPort := raw.openTrackUdpClientPort;
      cameraWidth := raw.cameraWidth;
      cameraHeight := raw.cameraHeight;
      cameraFps := raw.cameraFps;
      cameraAutoFocus := raw.cameraAutoFocus;

      // Below the floor: warn and raise to 84; above 200: warn only.
      warning := ResizeWarningFor(faceDetectionResizeTo);
      faceDetectionResizeTo := ClampResizeTo(faceDetectionResizeTo);

      wasReloaded := true;

      needsCameraRestart :=
        previousFaceDetectionResizeTo != faceDetectionResizeTo ||
        previousLandmarkDetectionNoiseFilter != landmarkDetectionNoiseFilter ||
        previousCameraWidth != cameraWidth ||
        previousCameraHeight != cameraHeight ||
        previousCameraFps != cameraFps ||
        previousCameraAutoFocus != cameraAutoFocus;
    }
  }
}
