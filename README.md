# Baby monitor: verified model of the app's logic

This project is a Dafny model of the logic of a baby-monitor web and Cordova
app. It covers two classes:

- `BabyMonitorApp` in `script.js`;
- the native wrapper `CordovaApp` in `cordova-app.js`.

Browser, document-store and plugin results are inputs to the model: optional
values, a `supported(mime)` predicate, booleans for plugin presence, and
events that arrive as method calls. Elsewhere the model follows the source's
own branches, constants and messages.

The source's one `BabyMonitorApp` object holds two groups of fields that never
touch each other, so the model splits it into two classes:

- **`Recording.Recorder`** holds the recording session: `isRecording`,
  `recordedChunks` and `recordingStartTime`, the MediaRecorder they drive, and
  the `ondataavailable` / `onerror` / `onstop` events. Stopping and the later
  `onstop` are two separate events.
- **`LiveSource.VideoFeed`** holds the live video feed:
  - the document-store subscription and its snapshot callback;
  - the `setupVideo` guards;
  - the media-element events and the 10-second timer;
  - `cleanup`;
  - the four panels of `showVideoState`, as an array of display values.

  The source's behaviour is kept even where it is untidy:
  - every `setupVideo` adds another group of listeners, so one element event
    runs once per group;
  - the 10-second timer is never disarmed;
  - `retryVideoLoad` subscribes again without releasing the previous
    subscription;
  - nothing raises an "invalid state" error.

The pure parts of `script.js` are modelled as functions, with lemmas about
them:

- the still-capture fallback chain, in `Capture`;
- the stream source and the MIME type ladder, in `Capture`;
- the `m:ss` timer, the sleep split and the timestamped file names, in
  `Formatting`;
- tab switching, swipe classification and the camera control buttons, in
  `Navigation`.

`Cordova` covers the following:

- the readiness flag as a class;
- the back-button priority and the exit confirmation;
- the spread-merge of camera and capture options, as a map union.

`Wrappers` holds `Option` and `Result`. `Blob` holds bytes and the in-order
join of recorded chunks.

## Model

| member | source | states |
|---|---|---|
| Blob.Join | script.js:551-553 | the blob made of the recorded chunks is exactly as long as all the chunks together |
| Blob.JoinAppend | script.js:441 | pushing one more chunk appends its bytes at the end of the blob |
| Blob.JoinConcat | script.js:551-553 | the blob of two runs of chunks is the first run's bytes followed by the second's: the blob keeps arrival order |
| Blob.JoinThree | script.js:551-553 | three chunks make the blob of their bytes one after the other |
| Blob.JoinNonEmptySize | script.js:440-441 | chunks that are all non-empty give a blob of at least one byte per chunk; `OnStop` relies on it to save a file of at least as many bytes as chunks |
| Capture.CaptureCameraSection | script.js:193-227 | when html2canvas is loaded its result is final, tagged `html2canvas`, and is the image returned; otherwise the manual canvas's image is returned, tagged `manual_canvas` |
| Capture.TakePhoto | script.js:104-156 | the video-frame method runs exactly when the video is displayed `block` and not paused; a saved image gives "Screenshot saved successfully", and no image gives "Screenshot failed: Failed to capture screenshot" |
| Capture.TakePhotoIsFirstPresent | script.js:104-149 | the saved image is the first non-null result of video frame, then camera section, then screen capture |
| Capture.VideoFrameShortCircuits | script.js:112-121 | a frame from the playing video ends the chain: nothing else runs and the tag is `video_frame` |
| Capture.AllStrategiesFail | script.js:123-155 | when every method yields null, nothing is saved, the failure notice is shown, and both the section and the screen capture were tried |
| Capture.SavedTagNamesItsStrategy | script.js:104-149 | the saved image's tag names the method that produced it, and screen capture runs only after both earlier methods failed |
| Capture.PickStream | script.js:385-417 | the element's own `captureStream` is used when the video is displayed and playing, else `mozCaptureStream`, else a display capture; the start fails exactly when the element has no usable stream and `getDisplayMedia` is missing or refused. A missing one fails with "Screen recording not supported", and a refusal fails with the refusal's own message |
| Capture.ChooseMime | script.js:420-434 | the chosen type is supported whenever it is on the vp9/vp8/webm ladder; it is `video/mp4` exactly when none of the three is supported, and mp4 is never checked |
| Capture.ChooseMimeIsFirstSupported | script.js:420-434 | the choice equals the first supported rung of the ladder [vp9, vp8, webm], ending at mp4 |
| Capture.ChooseMimeSkipsOnlyUnsupported | script.js:425-433 | every rung above the chosen one is unsupported |
| Formatting.NatToString | script.js:526 | the decimal text of a number is non-empty digits with no leading zero |
| Formatting.ParseNatToString | script.js:526 | reading the decimal text back gives the number |
| Formatting.PadStart | script.js:526 | `padStart`: fill characters in front up to the width, and the original string kept at the end |
| Formatting.ParseClockText | script.js:524-526 | `minutes:ss` with the seconds padded to two digits reads back as minutes times 60 plus seconds |
| Formatting.DurationClock | script.js:524-526 | a number of seconds split into minutes and the remaining seconds reads back as itself |
| Formatting.FormatClock | script.js:523-526 | reading the `m:ss` text back gives the whole seconds elapsed, so minutes and seconds are split without loss |
| Formatting.SleepSplit | script.js:766-767 | the minutes are below 60, `hours*3600000 + minutes*60000 <= diffMs < hours*3600000 + (minutes+1)*60000`, and `hours*60 + minutes` is the whole minutes slept |
| Formatting.SleepText | script.js:771 | the `<h>h <m>m` label reads back as the hours and minutes of the split |
| Formatting.CleanTimestamp | script.js:559 | same length; every `:` and `.` becomes `-`; every other character stays; no `:` or `.` remains |
| Formatting.ScreenshotFilename | script.js:340-341 | the name is `baby-monitor-screenshot-`, the cleaned timestamp and `.png`; it has no colon, and its only full stop starts the extension, whatever the timestamp held |
| Formatting.RecordingFilename | script.js:559-560 | the name is `baby-monitor-recording-`, the cleaned timestamp and `.webm`; it has no colon, and its only full stop starts the extension, whatever the timestamp held |
| Navigation.JsRem | script.js:948 | JavaScript `%` by a positive divisor: equals Dafny's `%` for a non-negative dividend, lies in (-b, 0] for a negative one, and differs from the dividend by a multiple of the divisor |
| Navigation.SwitchTab | script.js:942-954 | with n > 0 items and an active index in [-1, n), the new index is in [0, n); with no items none is selected |
| Navigation.SwitchTabSteps | script.js:947-951 | from item i, `next` gives i+1 and wraps to 0, and `prev` gives i-1 and wraps to n-1 |
| Navigation.SwitchTabInverse | script.js:947-951 | `prev` undoes `next` and `next` undoes `prev` |
| Navigation.SwitchTabFromNone | script.js:944-951 | with no active item, `next` selects item 0 and `prev` selects item n-2 (or 0 when n = 1) |
| Navigation.ClassifySwipe | script.js:884-912 | refresh, pull hint, next tab and prev tab each hold exactly when their travel direction dominates and exceeds 50 |
| Navigation.ReversedSwipe | script.js:884-912 | a gesture traced backwards does the opposite action, and an ignored one stays ignored |
| Navigation.ShortSwipeIgnored | script.js:885-911 | a movement of at most 50 on both axes does nothing |
| Navigation.ControlAction | script.js:76-97 | a button index maps to an action exactly when it is 0, 1 or 2 |
| Navigation.ControlActionIndex | script.js:77-78 | each action is run by exactly one button, the one at its position |
| Recording.BlobType | script.js:551-553 | the blob type is the recorder's type, or `video/webm` when that is empty |
| Recording.ElapsedSeconds | script.js:575-576 | the duration is the floor of the elapsed milliseconds over 1000, or 0 with no start time |
| Recording.SavedNotice | script.js:578 | the notice names the saved file, and the number between the brackets reads back as the seconds recorded |
| Recording.Recorder.constructor | script.js:5-20 | a new session is not recording, has no chunks, no start time, no recorder, no notices and no downloads |
| Recording.Recorder.OnDataAvailable | script.js:439-444 | a chunk is appended at the end only when present and non-empty; otherwise the chunks are unchanged |
| Recording.Recorder.OnError | script.js:454-458 | shows "Recording error: <message>" and clears the flag |
| Recording.Recorder.StartRecording | script.js:378-493 | clears the chunks. It succeeds exactly when a stream is obtained and the recorder starts. On success it records with the MIME ladder's choice, sets the flag and the start time, and shows "Recording started". On failure the flag is false and the error is the stream's or the recorder's |
| Recording.Recorder.StopRecording | script.js:495-508 | stops a running recorder, clears the flag, and shows "Recording stopped" |
| Recording.Recorder.ToggleRecording | script.js:363-376 | stops exactly when the flag was set, with `StopRecording`'s outcome and the chunks and start time untouched; otherwise it starts with `StartRecording`'s outcome (start time now, a recorder with the ladder's type, "Recording started"), and a failed start shows "Recording failed: <message>", leaves the flag false and keeps the start time and recorder |
| Recording.Recorder.OnStop | script.js:541-598 | with no chunks it saves nothing and only notifies. Otherwise it saves one file named from the timestamp, holding the in-order join of the chunks and never empty, shows the saved notice with the duration, and then empties the chunks and the start time |
| Recording.Recorder.OnStreamEnded | script.js:446-452 | a recorder whose stream ends stops by itself; the flag, the chunks and the notices stay as they were |
| Recording.RecordThreeChunks | script.js:439-553 | a session receiving three chunks, an empty one and a missing one saves exactly the three chunks' bytes in order, under the recording file name |
| Recording.StopWithoutData | script.js:541-546 | a session that receives no data saves no file and ends on "No recording data available" |
| Recording.SharingEndedThenToggle | script.js:495-508 | when screen sharing ends the file is saved but the flag stays set; the next toggle stops again, saves no second file and shows "Recording stopped" |
| LiveSource.PanelFor | script.js:1171-1184 | exactly `loading`, `video`, `fallback` and `error` name a panel, and each names one of the four |
| LiveSource.Panels | script.js:1159-1185 | at most one panel is shown, and a shown panel exists and is the one the state names |
| LiveSource.PanelsShowTheirState | script.js:1159-1185 | a known state whose element exists is the state the panels display; an unknown state hides all four |
| LiveSource.Truthy | script.js:996-1000 | the falsy field values are exactly a missing field, `''`, `0` and `false` |
| LiveSource.MediaErrorInfo | script.js:1067-1093 | no error object gives UNKNOWN / "Video feed unavailable", and a code outside 1-4 gives UNKNOWN / "Unknown video error"; the label is UNKNOWN exactly in those two cases |
| LiveSource.MediaErrorLabelRoundTrip | script.js:1072-1089 | each code 1-4 gets its own label, and the label gives the code back |
| LiveSource.MediaErrorMessageRoundTrip | script.js:1069-1092 | each code 1-4 gets its own message, which gives the code back; the message names no code exactly when there is no error object or the code is not 1-4 |
| LiveSource.VideoFeed.constructor | script.js:13-15 | no URL, no subscription, no listeners or timers; the element's source is empty and every panel hidden, as the page is assumed to start (see Left out) |
| LiveSource.VideoFeed.ShowVideoState | script.js:1159-1185 | the panels become `Panels(present, state)`: all existing panels are hidden, then the named one is shown, and at most one stays shown |
| LiveSource.VideoFeed.InitializeVideoFeed | script.js:968-980 | the feed loads only once the database exists, with `loadVideoFeed`'s outcome; otherwise it asks to be called again and changes nothing. It never unsubscribes |
| LiveSource.VideoFeed.LoadVideoFeed | script.js:982-1017 | shows loading and adds a new live subscription as the handle, keeping every earlier one; a subscription that throws shows the error panel |
| LiveSource.VideoFeed.RetryVideoLoad | script.js:1188-1191 | subscribes again, and the subscription held before stays live |
| LiveSource.VideoFeed.Bindable | script.js:1020-1031 | a URL is bound exactly when the video element exists and the value is a truthy string |
| LiveSource.VideoFeed.SetupVideo | script.js:1019-1157 | with no video element, or a value that is not a non-empty string, it shows the error panel and changes nothing else. Otherwise it sets the source, adds one more listener group and arms one more timer |
| LiveSource.VideoFeed.OnSnapshot | script.js:991-1011 | a released subscription changes nothing; a truthy new URL is stored and bound; the same URL changes nothing; a falsy URL shows fallback; a missing document or a listener error shows error |
| LiveSource.VideoFeed.RunListeners | script.js:1041-1114 | an element event runs once per listener group: the panels show the event's state when any group exists, and each group adds its notices |
| LiveSource.VideoFeed.OnLoadStart | script.js:1041-1044 | with listeners attached the loading panel is shown |
| LiveSource.VideoFeed.OnCanPlay | script.js:1046-1062 | with listeners attached the video panel is shown |
| LiveSource.VideoFeed.OnVideoError | script.js:1064-1114 | with listeners attached the fallback panel is shown, and "<message>, showing placeholder" is shown once per listener group |
| LiveSource.VideoFeed.OnTimeout | script.js:1150-1156 | an armed timer is used up; when the element has no data it shows the fallback panel and the timeout notice, whatever happened since it was armed |
| LiveSource.VideoFeed.Cleanup | script.js:1194-1204 | releases the held subscription once and forgets it, and empties the element's source |
| LiveSource.RepeatedUrlBindsOnce | script.js:995-999 | the same URL delivered twice is bound once: one listener group and one timer |
| LiveSource.MissingThenEmpty | script.js:1000-1007 | a missing document shows only the error panel, and a later snapshot without a URL shows only the fallback panel |
| LiveSource.CleanupTwice | script.js:1194-1198 | cleaning up twice calls unsubscribe once and leaves nothing subscribed |
| LiveSource.RetryLeaksSubscription | script.js:1188-1191 | after a retry and a cleanup the first subscription is still live, and its callbacks still change the panels |
| LiveSource.StaleTimeoutAfterRebind | script.js:1150-1156 | after a second URL is bound, the first URL's timer still fires and shows the fallback panel, with one timer left |
| Cordova.CordovaApp.constructor | cordova-app.js:3-8 | starts not ready, with no device or network details |
| Cordova.CordovaApp.OnDeviceReady | cordova-app.js:23-49 | sets the flag, records device and network details only when their plugins exist, and registers one more back-button handler |
| Cordova.CordovaApp.IsReady | cordova-app.js:322-324 | the app reports ready exactly when `deviceready` has been handled |
| Cordova.ReadyOnlyAfterDeviceReady | cordova-app.js:4-25 | the app is not ready before `deviceready` and is ready after it, also after a second arrival |
| Cordova.HandleBackButton | cordova-app.js:121-145 | fullscreen leaves fullscreen; otherwise an active tab that is not the dashboard opens the dashboard; otherwise, including with no active tab, the exit confirmation is shown |
| Cordova.BackClimbsToExit | cordova-app.js:121-145 | repeated presses from fullscreen on another tab go out of fullscreen, then to the dashboard, then to the exit confirmation |
| Cordova.ExitOnlyFromDashboardOrNoTab | cordova-app.js:133-144 | the exit confirmation is never shown in fullscreen or on another tab, and is always shown with no active tab outside fullscreen |
| Cordova.ExitsApp | cordova-app.js:147-166 | the native dialog exits exactly when its button index is 1; the browser dialog exits when it is accepted and `navigator.app` exists |
| Cordova.Spread | cordova-app.js:189 | the merged options have every key of both maps; the caller's value wins, and every other key keeps its default |
| Cordova.SpreadNothing | cordova-app.js:189 | spreading no options over the defaults gives the defaults |
| Cordova.TakePictureOptions | cordova-app.js:169-189 | with no camera plugin it rejects with "Camera not available"; otherwise the options have the camera defaults' keys plus the caller's, each caller value as given and every default the caller leaves out kept |
| Cordova.CaptureVideoOptions | cordova-app.js:206-219 | with no capture plugin it rejects with "Video capture not available"; otherwise the options have the capture defaults' keys plus the caller's, each caller value as given and every default the caller leaves out kept |
| Cordova.CaptureDefaultsKept | cordova-app.js:213-219 | no options give limit 1, duration 30 and quality 1; a caller's duration replaces only that key |
| Cordova.CameraQualityOverride | cordova-app.js:176-189 | a caller's quality replaces the default 75, and every other camera default is kept |

## Left out

- Canvas drawing, `toBlob`, object URLs, download anchors, `html2canvas` and `manualCanvasCapture`: each is an optional result of the capture chain, and a download is a record of file name, type and bytes.
- `saveScreenshot` throwing after a successful capture: `TakePhoto` reports the success notice for any image obtained.
- The MediaRecorder, `captureStream`, `mozCaptureStream` and `getDisplayMedia`: these are inputs, namely a stream choice, a recorder error message and `supported`. Releasing the stream's tracks in `onstop` is not modelled.
- Recording.Recorder.StartRecording: when `start()` throws after the recorder was created, the source keeps the new, inactive recorder in `mediaRecorder`; the model keeps the previous one.
- Button styling, the recording timer interval, the heartbeat and live-dot animations, and the flash effect: these are presentation work.
- The 10-second video timer is an event (`OnTimeout`) with its `readyState`. The one-second retry of `initializeVideoFeed` is the result `retryLater`.
- The document-store SDK: subscribing is an input that succeeds or throws, and snapshots and listener errors are events tagged with their subscription.
- Analytics (`firebaseLogEvent`) and console logging: these are best-effort side effects and do not change state.
- `video-url` values that are objects or floating-point numbers: the model has missing, string, integer and boolean values.
- Calling `pause()` and `load()` on the element, and the debug-only listeners (`loadeddata`, `progress` and the others): they change none of the modelled state.
- The simulated sensor updates and `toggleAudio`: they are driven by `Math.random` and use floating-point clamps.
- Notification styling, fullscreen CSS, style injection, and the internals of `toggleFullscreen` and `fallbackFullscreen`.
- The sleep split and the timer take non-negative durations. A clock running backwards is not modelled.
- LiveSource.VideoFeed.constructor: the panels start hidden and the element starts with no source. In the page both come from the markup, which is not part of this model, and an unset inline style reads `''`, which `Display` does not express. So `AtMostOneShown` holds from construction in the model, whereas in the page it holds only after the first `showVideoState`.
- Interleaving at `await`: each start, stop and event is one atomic step. While `await getDisplayMedia` (script.js:405) is pending the flag is still false, so a second click or Enter (script.js:926-930) runs `startRecording` again. That clears the chunks once more and can leave two recorders running; the model does not capture it.
- Navigation.ClassifySwipe: touch coordinates are whole numbers, whereas `Touch.screenX` and `screenY` are floating-point; only the comparisons against 50 matter, and fractional travel is not modelled.
- `handleNavigation`'s effect on the page: `switchTab` is modelled up to the index it selects.
- In `cordova-app.js`:
  - `saveFile`, StatusBar, orientation lock, vibrate, native alerts and toasts;
  - the plugin calls `getPicture` and `captureVideo` themselves, which are modelled up to the options handed to them;
  - `downlinkMax` as a floating-point value.
- The calls to `onCordovaReady` and `onNetworkChange` on `BabyMonitorApp`: that class defines neither method.
