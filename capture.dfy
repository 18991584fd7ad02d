/** How the app obtains an image or a stream to record: the still-capture
    fallback chain of `takePhoto` (script.js:104-156, 193-227), the stream
    source of `startRecording` (script.js:385-417) and its MIME type ladder
    (script.js:420-434). What the browser hands back (a canvas blob, a
    stream, a permission refusal) is an input; a `null` result or a caught
    error is `None`. */
module Capture {
  import opened Wrappers
  import opened Blob

  /** An image as `canvas.toBlob` delivers it. */
  datatype Raster = Raster(blob: seq<byte>, width: int, height: int)

  /** The `method` tag of a captured image: `video_frame`, `html2canvas`,
      `manual_canvas` or `screen_capture`. */
  datatype Method = VideoFrameTag | Html2CanvasTag | ManualCanvasTag | ScreenCaptureTag

  datatype Shot = Shot(raster: Raster, tag: Method)

  /** The three strategies of `takePhoto`, in priority order. */
  datatype Strategy = FromVideoFrame | FromCameraSection | FromScreen

  /** The page and browser as `takePhoto` finds them. */
  datatype PhotoInputs = PhotoInputs(
    videoPresent: bool,           // `#babyVideo` exists
    videoDisplay: string,         // its `style.display`
    videoPaused: bool,
    videoFrame: Option<Raster>,   // `captureVideoFrame`
    html2canvasLoaded: bool,      // `typeof html2canvas !== 'undefined'`
    html2canvasShot: Option<Raster>,
    manualShot: Option<Raster>,   // `manualCanvasCapture`
    screenShot: Option<Raster>)   // `captureScreenshot`

  /** What `takePhoto` did: the strategies it ran, the image it saved, and
      the notice it showed. */
  datatype PhotoReport = PhotoReport(attempted: seq<Strategy>, saved: Option<Shot>, notice: string)

  const ScreenshotSaved: string := "Screenshot saved successfully"
  const ScreenshotFailed: string := "Screenshot failed: Failed to capture screenshot"

  function Tag(r: Option<Raster>, m: Method): (s: Option<Shot>)
    ensures s.Some? <==> r.Some?
    ensures s.Some? ==> s.value == Shot(r.value, m)
  {
    match r
    case None => None
    case Some(raster) => Some(Shot(raster, m))
  }

  /** Method 1 runs only on a displayed (`block`), playing video element. */
  predicate VideoFrameEligible(p: PhotoInputs)
  {
    p.videoPresent && p.videoDisplay == "block" && !p.videoPaused
  }

  /** `captureCameraSection`: html2canvas when it is loaded (its result is
      final, even when empty), the manual canvas otherwise. */
  function CaptureCameraSection(p: PhotoInputs): (s: Option<Shot>)
    ensures s.Some? ==> s.value.tag == (if p.html2canvasLoaded then Html2CanvasTag else ManualCanvasTag)
    ensures s.Some? <==> (if p.html2canvasLoaded then p.html2canvasShot.Some? else p.manualShot.Some?)
    ensures s.Some? ==>
      s.value.raster == (if p.html2canvasLoaded then p.html2canvasShot.value else p.manualShot.value)
  {
    if p.html2canvasLoaded then Tag(p.html2canvasShot, Html2CanvasTag)
    else Tag(p.manualShot, ManualCanvasTag)
  }

  /** `takePhoto`: each strategy runs only while no image has been obtained. */
  function TakePhoto(p: PhotoInputs): (r: PhotoReport)
    ensures r.saved.Some? ==> r.notice == ScreenshotSaved
    ensures r.saved.None? ==> r.notice == ScreenshotFailed
    ensures FromVideoFrame in r.attempted <==> VideoFrameEligible(p)
  {
    var first := if VideoFrameEligible(p) then Tag(p.videoFrame, VideoFrameTag) else None;
    var second := if first.None? then CaptureCameraSection(p) else None;
    var third := if first.None? && second.None? then Tag(p.screenShot, ScreenCaptureTag) else None;
    var attempted :=
      (if VideoFrameEligible(p) then [FromVideoFrame] else []) +
      (if first.None? then [FromCameraSection] else []) +
      (if first.None? && second.None? then [FromScreen] else []);
    var saved := if first.Some? then first else if second.Some? then second else third;
    PhotoReport(attempted, saved, if saved.Some? then ScreenshotSaved else ScreenshotFailed)
  }

  /** Reference definition of a priority chain: the first candidate that is
      present. */
  function FirstPresent<T>(candidates: seq<Option<T>>): (r: Option<T>)
    ensures r.Some? <==> exists i :: 0 <= i < |candidates| && candidates[i].Some?
    ensures r.Some? ==> exists i :: 0 <= i < |candidates| && candidates[i] == r &&
                                  (forall j :: 0 <= j < i ==> candidates[j].None?)
  {
    if candidates == [] then None
    else if candidates[0].Some? then candidates[0]
    else
      var r := FirstPresent(candidates[1..]);
      assert forall i :: 1 <= i < |candidates| ==> candidates[i] == candidates[1..][i - 1];
      r
  }

  /** The three candidates in priority order; method 1 counts as absent when
      the video is not eligible. */
  function PhotoCandidates(p: PhotoInputs): seq<Option<Shot>>
  {
    [if VideoFrameEligible(p) then Tag(p.videoFrame, VideoFrameTag) else None,
     CaptureCameraSection(p),
     Tag(p.screenShot, ScreenCaptureTag)]
  }

  /** `takePhoto` saves exactly the first image the priority chain offers. */
  lemma TakePhotoIsFirstPresent(p: PhotoInputs)
    ensures TakePhoto(p).saved == FirstPresent(PhotoCandidates(p))
  {
    var c := PhotoCandidates(p);
    assert c[1..] == [c[1], c[2]];
    assert c[1..][1..] == [c[2]];
    assert c[1..][1..][1..] == [];
  }

  /** A frame from the playing video ends the chain: nothing else runs and
      the saved image is tagged `video_frame`. */
  lemma VideoFrameShortCircuits(p: PhotoInputs)
    requires VideoFrameEligible(p) && p.videoFrame.Some?
    ensures TakePhoto(p).attempted == [FromVideoFrame]
    ensures TakePhoto(p).saved == Some(Shot(p.videoFrame.value, VideoFrameTag))
  {
  }

  /** When every strategy yields nothing, nothing is saved and the failure
      notice is shown; the section and screen strategies both ran. */
  lemma AllStrategiesFail(p: PhotoInputs)
    requires !VideoFrameEligible(p) || p.videoFrame.None?
    requires CaptureCameraSection(p).None? && p.screenShot.None?
    ensures TakePhoto(p).saved.None?
    ensures TakePhoto(p).notice == ScreenshotFailed
    ensures TakePhoto(p).attempted[|TakePhoto(p).attempted| - 2..] == [FromCameraSection, FromScreen]
  {
  }

  /** The saved image keeps the tag of the strategy that produced it, and
      the screen capture runs only when both earlier strategies failed. */
  lemma SavedTagNamesItsStrategy(p: PhotoInputs)
    ensures var r := TakePhoto(p);
      r.saved.Some? ==>
        (r.saved.value.tag == VideoFrameTag ==> r.attempted == [FromVideoFrame]) &&
        (r.saved.value.tag == ScreenCaptureTag ==> FromScreen in r.attempted) &&
        (r.saved.value.tag in {Html2CanvasTag, ManualCanvasTag} ==> FromScreen !in r.attempted)
  {
  }

  // ---------------------------------------------------------------------
  // Recording source and encoding

  /** The `#babyVideo` element as `startRecording` finds it. */
  datatype VideoElement = VideoElement(display: string, paused: bool,
                                       hasCaptureStream: bool, hasMozCaptureStream: bool)

  /** `navigator.mediaDevices.getDisplayMedia`: missing, refused (the promise
      rejects with a message), or granted. */
  datatype DisplayCapture = DisplayUnsupported | DisplayRejected(reason: string) | DisplayGranted

  datatype StreamSource = ElementStream | MozElementStream | ScreenStream

  const ScreenRecordingUnsupported: string := "Screen recording not supported"

  /** The video element can hand over its own stream: it is displayed,
      playing, and has `captureStream` or `mozCaptureStream`. */
  predicate ElementStreamUsable(video: Option<VideoElement>)
  {
    && video.Some? && video.value.display == "block" && !video.value.paused
    && (video.value.hasCaptureStream || video.value.hasMozCaptureStream)
  }

  /** The stream `startRecording` records (script.js:385-417): the video
      element's own stream when it is displayed and playing, else a display
      capture; a failure carries the message of the error thrown. */
  function PickStream(video: Option<VideoElement>, display: DisplayCapture): (r: Result<StreamSource, string>)
    ensures r == Success(ElementStream) <==>
      video.Some? && video.value.display == "block" && !video.value.paused && video.value.hasCaptureStream
    ensures r == Success(MozElementStream) <==>
      video.Some? && video.value.display == "block" && !video.value.paused &&
      !video.value.hasCaptureStream && video.value.hasMozCaptureStream
    ensures r == Success(ScreenStream) <==> !ElementStreamUsable(video) && display == DisplayGranted
    ensures r.Failure? <==> !ElementStreamUsable(video) && display != DisplayGranted
    ensures r.Failure? && display == DisplayUnsupported ==> r.error == ScreenRecordingUnsupported
    ensures r.Failure? && display.DisplayRejected? ==> r.error == display.reason
  {
    var fromElement :=
      if video.Some? && video.value.display == "block" && !video.value.paused then
        if video.value.hasCaptureStream then Some(ElementStream)
        else if video.value.hasMozCaptureStream then Some(MozElementStream)
        else None
      else None;
    if fromElement.Some? then Success(fromElement.value)
    else match display
      case DisplayUnsupported => Failure(ScreenRecordingUnsupported)
      case DisplayRejected(reason) => Failure(reason)
      case DisplayGranted => Success(ScreenStream)
  }

  const Vp9: string := "video/webm;codecs=vp9"
  const Vp8: string := "video/webm;codecs=vp8"
  const Webm: string := "video/webm"
  const Mp4: string := "video/mp4"

  /** The types that are checked, best first; `Mp4` is the unchecked last resort. */
  const MimeLadder: seq<string> := [Vp9, Vp8, Webm]

  /** The nested fallbacks of script.js:420-434, with
      `MediaRecorder.isTypeSupported` as `supported`. */
  function ChooseMime(supported: string -> bool): (m: string)
    ensures m in MimeLadder ==> supported(m)
    ensures m == Mp4 <==> forall t :: t in MimeLadder ==> !supported(t)
    ensures m == Vp9 || m == Vp8 || m == Webm || m == Mp4
  {
    var mime := Vp9;
    if !supported(mime) then
      var mime := Vp8;
      if !supported(mime) then
        var mime := Webm;
        if !supported(mime) then Mp4 else mime
      else mime
    else mime
  }

  /** Reference definition of a fallback ladder: the first supported type,
      or `last` when none is. */
  function FirstSupported(ladder: seq<string>, supported: string -> bool, last: string): (m: string)
    ensures m == last || (m in ladder && supported(m))
    ensures (exists i :: 0 <= i < |ladder| && supported(ladder[i])) ==> m in ladder && supported(m)
  {
    if ladder == [] then last
    else if supported(ladder[0]) then ladder[0]
    else
      var m := FirstSupported(ladder[1..], supported, last);
      assert forall i :: 1 <= i < |ladder| ==> ladder[i] == ladder[1..][i - 1];
      m
  }

  /** The MIME type chosen is the first supported rung of the ladder, in
      order, ending at `video/mp4`. */
  lemma ChooseMimeIsFirstSupported(supported: string -> bool)
    ensures ChooseMime(supported) == FirstSupported(MimeLadder, supported, Mp4)
  {
    assert MimeLadder[1..] == [Vp8, Webm];
    assert MimeLadder[1..][1..] == [Webm];
    assert MimeLadder[1..][1..][1..] == [];
  }

  /** A better type is never passed over: every rung above the chosen one is
      unsupported. */
  lemma ChooseMimeSkipsOnlyUnsupported(supported: string -> bool, i: nat, j: nat)
    requires i < j < |MimeLadder| && ChooseMime(supported) == MimeLadder[j]
    ensures !supported(MimeLadder[i])
  {
  }
}
