/** The native wrapper `CordovaApp` (cordova-app.js): its readiness flag and
    the device and network details it records, the back-button priority
    rule, the exit confirmation, and the default-and-override merging of the
    camera and capture options. Plugin objects are inputs; a missing plugin
    is `None` or `false`. */
module Cordova {
  import opened Wrappers

  /** `device.platform`, `version`, `uuid`, `model`, `manufacturer`. */
  datatype DeviceInfo = DeviceInfo(platform: string, version: string, uuid: string,
                                   model: string, manufacturer: string)

  /** `navigator.connection.type`; `downlinkMax` in whole megabits per
      second, `None` when the plugin reports no finite value. */
  datatype NetworkInfo = NetworkInfo(kind: string, downlinkMax: Option<int>)

  class CordovaApp {
    var isDeviceReady: bool
    var deviceInfo: Option<DeviceInfo>     // `null` until read from the plugin
    var networkInfo: Option<NetworkInfo>
    var backButtonListeners: nat           // `backbutton` handlers registered

    /** cordova-app.js:3-8: not ready, nothing known yet. */
    constructor ()
      ensures !isDeviceReady && deviceInfo == None && networkInfo == None
      ensures backButtonListeners == 0
    {
      isDeviceReady := false;
      deviceInfo := None;
      networkInfo := None;
      backButtonListeners := 0;
    }

    /** `isReady` (cordova-app.js:322-324): whether `deviceready` has been
        handled. */
    function IsReady(): (ready: bool)
      reads this
      ensures ready <==> isDeviceReady
    {
      isDeviceReady
    }

    /** `onDeviceReady` (cordova-app.js:23-49): sets the flag, records the
        device and network details when their plugins exist (keeping what it
        had otherwise), and registers one more back-button handler. It runs
        once per `deviceready` event and once more from the browser fallback
        timer. */
    method OnDeviceReady(device: Option<DeviceInfo>, connection: Option<NetworkInfo>)
      modifies this
      ensures isDeviceReady
      ensures deviceInfo == if device.Some? then device else old(deviceInfo)
      ensures networkInfo == if connection.Some? then connection else old(networkInfo)
      ensures backButtonListeners == old(backButtonListeners) + 1
    {
      isDeviceReady := true;
      if device.Some? {
        deviceInfo := device;
      }
      if connection.Some? {
        networkInfo := connection;
      }
      backButtonListeners := backButtonListeners + 1;
    }
  }

  /** The app is not ready until `deviceready` arrives, and stays ready when
      the event arrives a second time; the second arrival keeps the device
      details when the plugin is gone by then. */
  method ReadyOnlyAfterDeviceReady(d: DeviceInfo)
    returns (before: bool, after: bool, again: bool, info: Option<DeviceInfo>)
    ensures !before && after && again
    ensures info == Some(d)
  {
    var app := new CordovaApp();
    before := app.IsReady();
    app.OnDeviceReady(Some(d), None);
    after := app.IsReady();
    app.OnDeviceReady(None, None);
    again := app.IsReady();
    info := app.deviceInfo;
  }

  // ---------------------------------------------------------------------
  // Back button

  /** What `handleBackButton` finds in the page. `activeNav` is the active
      nav item, if any, with its `data-tab` (`None` when it has none). */
  datatype BackScreen = BackScreen(
    cameraSectionPresent: bool,
    fullscreen: bool,            // `.camera-section` has class `fullscreen`
    appPresent: bool,            // `window.babyMonitorApp`
    activeNav: Option<Option<string>>,
    dashboardNavPresent: bool)

  datatype BackAction = ExitFullscreen | OpenDashboard | ConfirmExit | NoAction

  predicate InFullscreen(s: BackScreen)
  {
    s.cameraSectionPresent && s.fullscreen
  }

  /** An active nav item whose tab is not `dashboard` (a missing `data-tab`
      is `undefined`, which differs from `'dashboard'`). */
  predicate OffDashboard(s: BackScreen)
  {
    s.activeNav.Some? && s.activeNav.value != Some("dashboard")
  }

  /** `handleBackButton` (cordova-app.js:121-145). */
  function HandleBackButton(s: BackScreen): (a: BackAction)
    ensures a == ExitFullscreen <==> InFullscreen(s) && s.appPresent
    ensures a == OpenDashboard <==> !InFullscreen(s) && OffDashboard(s) && s.dashboardNavPresent
    ensures a == ConfirmExit <==> !InFullscreen(s) && !OffDashboard(s)
  {
    if InFullscreen(s) then
      if s.appPresent then ExitFullscreen else NoAction
    else if OffDashboard(s) then
      if s.dashboardNavPresent then OpenDashboard else NoAction
    else ConfirmExit
  }

  /** The page after the action: leaving fullscreen clears the class, and
      opening the dashboard makes its nav item the active one. */
  function AfterBack(s: BackScreen): BackScreen
  {
    match HandleBackButton(s)
    case ExitFullscreen => s.(fullscreen := false)
    case OpenDashboard => s.(activeNav := Some(Some("dashboard")))
    case _ => s
  }

  /** Pressing back repeatedly from fullscreen on another tab climbs one
      level at a time: out of fullscreen, then to the dashboard, then to the
      exit confirmation. */
  lemma BackClimbsToExit(s: BackScreen)
    requires InFullscreen(s) && s.appPresent && OffDashboard(s) && s.dashboardNavPresent
    ensures HandleBackButton(s) == ExitFullscreen
    ensures HandleBackButton(AfterBack(s)) == OpenDashboard
    ensures HandleBackButton(AfterBack(AfterBack(s))) == ConfirmExit
  {
  }

  /** The exit confirmation is never shown while fullscreen or on another
      tab; with no active nav item it is shown unless fullscreen. */
  lemma ExitOnlyFromDashboardOrNoTab(s: BackScreen)
    ensures HandleBackButton(s) == ConfirmExit ==> !InFullscreen(s)
    ensures HandleBackButton(s) == ConfirmExit ==> s.activeNav.None? || s.activeNav.value == Some("dashboard")
    ensures s.activeNav.None? && !InFullscreen(s) ==> HandleBackButton(s) == ConfirmExit
  {
  }

  // ---------------------------------------------------------------------
  // Exit confirmation

  /** The dialog `showExitConfirmation` uses: the native one, answered with
      the 1-based index of the button pressed (`'Yes'` is 1, `'No'` 2, and 0
      when dismissed), or the browser's `confirm`, with whether
      `navigator.app` exists. */
  datatype ExitDialog = NativeDialog(buttonIndex: int) | BrowserDialog(accepted: bool, appBridge: bool)

  /** Whether `navigator.app.exitApp()` is called (cordova-app.js:147-166). */
  function ExitsApp(d: ExitDialog): (exits: bool)
    ensures d.NativeDialog? ==> (exits <==> d.buttonIndex == 1)
    ensures d.BrowserDialog? ==> (exits <==> d.accepted && d.appBridge)
  {
    match d
    case NativeDialog(i) => i == 1
    case BrowserDialog(accepted, bridge) => accepted && bridge
  }

  // ---------------------------------------------------------------------
  // Option merging

  /** An option value: a number, a flag, a plugin constant by name, or an
      explicit `undefined`. */
  datatype OptionValue = Number(n: int) | Flag(b: bool) | Named(name: string) | Undefined

  type Options = map<string, OptionValue>

  /** `{ ...defaults, ...overrides }`: every key of either, the caller's
      value winning, even an explicit `undefined`. */
  function Spread(defaults: Options, overrides: Options): (r: Options)
    ensures r.Keys == defaults.Keys + overrides.Keys
    ensures forall k :: k in overrides ==> r[k] == overrides[k]
    ensures forall k :: k in defaults && k !in overrides ==> r[k] == defaults[k]
  {
    defaults + overrides
  }

  /** Spreading nothing over the defaults gives the defaults. */
  lemma SpreadNothing(defaults: Options)
    ensures Spread(defaults, map[]) == defaults
  {
  }

  /** `takePicture`'s defaults (cordova-app.js:176-187). */
  const CameraDefaults: Options := map[
    "quality" := Number(75),
    "destinationType" := Named("Camera.DestinationType.FILE_URI"),
    "sourceType" := Named("Camera.PictureSourceType.CAMERA"),
    "encodingType" := Named("Camera.EncodingType.JPEG"),
    "targetWidth" := Number(1920),
    "targetHeight" := Number(1080),
    "mediaType" := Named("Camera.MediaType.PICTURE"),
    "allowEdit" := Flag(false),
    "correctOrientation" := Flag(true),
    "saveToPhotoAlbum" := Flag(true)]

  /** `captureVideo`'s defaults (cordova-app.js:213-217). */
  const CaptureDefaults: Options := map[
    "limit" := Number(1),
    "duration" := Number(30),
    "quality" := Number(1)]

  const CameraUnavailable: string := "Camera not available"
  const CaptureUnavailable: string := "Video capture not available"

  /** The options `takePicture` hands to `navigator.camera.getPicture`, or the
      message it rejects with when there is no camera plugin. */
  function TakePictureOptions(cameraPlugin: bool, options: Options): (r: Result<Options, string>)
    ensures r.Failure? <==> !cameraPlugin
    ensures r.Failure? ==> r.error == CameraUnavailable
    ensures r.Success? ==> r.value.Keys == CameraDefaults.Keys + options.Keys
    ensures r.Success? ==> forall k :: k in options ==> r.value[k] == options[k]
    ensures r.Success? ==> forall k :: k in CameraDefaults && k !in options ==> r.value[k] == CameraDefaults[k]
  {
    if !cameraPlugin then Failure(CameraUnavailable) else Success(Spread(CameraDefaults, options))
  }

  /** The options `captureVideo` hands to `navigator.device.capture.captureVideo`,
      or the message it rejects with when the capture plugin is missing. */
  function CaptureVideoOptions(capturePlugin: bool, options: Options): (r: Result<Options, string>)
    ensures r.Failure? <==> !capturePlugin
    ensures r.Failure? ==> r.error == CaptureUnavailable
    ensures r.Success? ==> r.value.Keys == CaptureDefaults.Keys + options.Keys
    ensures r.Success? ==> forall k :: k in options ==> r.value[k] == options[k]
    ensures r.Success? ==> forall k :: k in CaptureDefaults && k !in options ==> r.value[k] == CaptureDefaults[k]
  {
    if !capturePlugin then Failure(CaptureUnavailable) else Success(Spread(CaptureDefaults, options))
  }

  /** A capture with no options records one clip of at most 30 seconds at
      high quality; a caller's `duration` replaces only that key. */
  lemma CaptureDefaultsKept(seconds: int)
    ensures CaptureVideoOptions(true, map[]) == Success(CaptureDefaults)
    ensures var r := CaptureVideoOptions(true, map["duration" := Number(seconds)]).value;
      r["duration"] == Number(seconds) && r["limit"] == Number(1) && r["quality"] == Number(1)
  {
    SpreadNothing(CaptureDefaults);
  }

  /** A caller's quality replaces the default 75 and every other camera
      default is kept. */
  lemma CameraQualityOverride(q: int)
    ensures var r := TakePictureOptions(true, map["quality" := Number(q)]).value;
      r.Keys == CameraDefaults.Keys && r["quality"] == Number(q) &&
      forall k :: k in CameraDefaults && k != "quality" ==> r[k] == CameraDefaults[k]
  {
  }
}
