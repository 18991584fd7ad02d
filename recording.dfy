/** The recording session of `BabyMonitorApp` (script.js:363-598): the
    fields `isRecording`, `recordedChunks` and `recordingStartTime`, the
    MediaRecorder it drives, and the events that recorder raises
    (`ondataavailable`, `onerror`, `onstop`). The clock is the parameter
    `now` (milliseconds) and the ISO timestamp of the moment the file is
    named is the parameter `iso`. */
module Recording {
  import opened Wrappers
  import opened Blob
  import opened Capture
  import opened Formatting

  /** The MediaRecorder as the app sees it: the type it records and whether
      its `state` is not `'inactive'`. */
  datatype MediaRecorder = MediaRecorder(mimeType: string, active: bool)

  /** A file handed to the browser for download. */
  datatype Download = Download(filename: string, mimeType: string, bytes: seq<byte>)

  const RecordingStarted: string := "Recording started"
  const RecordingStopped: string := "Recording stopped"
  const NoRecordingData: string := "No recording data available"

  /** `this.mediaRecorder.mimeType || 'video/webm'` (script.js:552). */
  function BlobType(recorderMime: string): (t: string)
    ensures t != ""
    ensures recorderMime != "" ==> t == recorderMime
    ensures recorderMime == "" ==> t == "video/webm"
  {
    if recorderMime != "" then recorderMime else "video/webm"
  }

  /** Whole seconds since `start`, floored, or 0 with no start time
      (script.js:575-576). */
  function ElapsedSeconds(start: Option<int>, now: int): (s: int)
    ensures start.Some? ==> s * 1000 <= now - start.value < s * 1000 + 1000
    ensures start.None? ==> s == 0
  {
    if start.Some? then (now - start.value) / 1000 else 0
  }

  /** The message of the error a failed start throws: the stream's, or else
      the recorder's. */
  function StartError(video: Option<VideoElement>, display: DisplayCapture, recorderError: Option<string>): string
  {
    var stream := PickStream(video, display);
    if stream.Failure? then stream.error
    else if recorderError.Some? then recorderError.value
    else ""
  }

  /** The notice shown once a recording is saved (script.js:578): it names
      the file and, between the brackets, the seconds recorded in decimal,
      read back as the same number (a negative count shows its `-`). */
  function SavedNotice(filename: string, seconds: int): (n: string)
    ensures var head := "Recording saved: " + filename + " (";
      && |n| >= |head| + 3 && n[..|head|] == head && n[|n| - 2..] == "s)"
      && (seconds >= 0 ==> AllDigits(n[|head|..|n| - 2]) && ParseNat(n[|head|..|n| - 2]) == seconds)
      && (seconds < 0 ==> n[|head|] == '-')
  {
    var head := "Recording saved: " + filename + " (";
    var digits := IntToString(seconds);
    var n := head + digits + "s)";
    assert n[..|head|] == head;
    assert n[|head|..|n| - 2] == digits;
    if seconds >= 0 then ParseNatToString(seconds); n else n
  }

  class Recorder {
    var isRecording: bool
    var chunks: seq<seq<byte>>        // `recordedChunks`
    var startTime: Option<int>        // `recordingStartTime`
    var recorder: Option<MediaRecorder>
    var notices: seq<string>          // every notification shown, oldest first
    var downloads: seq<Download>      // every file handed to the browser

    /** Only non-empty chunks are kept. The flag can outlive the recorder:
        a recorder whose stream ends stops by itself while the flag stays set. */
    ghost predicate Valid()
      reads this
    {
      AllNonEmpty(chunks)
    }

    constructor ()
      ensures Valid()
      ensures !isRecording && chunks == [] && startTime == None && recorder == None
      ensures notices == [] && downloads == []
    {
      isRecording := false;
      chunks := [];
      startTime := None;
      recorder := None;
      notices := [];
      downloads := [];
    }

    /** `ondataavailable` (script.js:439-444): a chunk with data is appended
        at the end; a missing or empty one is dropped. */
    method OnDataAvailable(data: Option<seq<byte>>)
      requires Valid()
      modifies this`chunks
      ensures Valid()
      ensures chunks == if data.Some? && |data.value| > 0 then old(chunks) + [data.value] else old(chunks)
    {
      if data.Some? && |data.value| > 0 {
        chunks := chunks + [data.value];
      }
    }

    /** `onerror` (script.js:454-458): a notice, and the flag is reset; the
        recorder itself is left as it is. */
    method OnError(message: string)
      requires Valid()
      modifies this`isRecording, this`notices
      ensures Valid() && !isRecording
      ensures notices == old(notices) + ["Recording error: " + message]
    {
      notices := notices + ["Recording error: " + message];
      isRecording := false;
    }

    /** `startRecording` (script.js:378-493): clears the chunks, picks a
        stream and a MIME type, and starts a recorder. `recorderError` is the
        message of an error thrown while creating or starting the recorder.
        A failure resets the flag and is returned as the error thrown. */
    method StartRecording(video: Option<VideoElement>, display: DisplayCapture,
                          supported: string -> bool, recorderError: Option<string>, now: int)
      returns (r: Result<string, string>)
      requires Valid()
      modifies this
      ensures Valid()
      ensures chunks == [] && downloads == old(downloads)
      ensures r.Success? <==> PickStream(video, display).Success? && recorderError.None?
      ensures r.Success? ==>
        && r.value == ChooseMime(supported)
        && isRecording && startTime == Some(now)
        && recorder == Some(MediaRecorder(r.value, true))
        && notices == old(notices) + [RecordingStarted]
      ensures r.Failure? ==>
        && !isRecording && startTime == old(startTime) && recorder == old(recorder)
        && notices == old(notices)
        && r.error == StartError(video, display, recorderError)
    {
      chunks := [];
      var stream := PickStream(video, display);
      if stream.Failure? {
        isRecording := false;
        return Failure(stream.error);
      }
      var mimeType := ChooseMime(supported);
      if recorderError.Some? {
        isRecording := false;
        return Failure(recorderError.value);
      }
      recorder := Some(MediaRecorder(mimeType, true));
      isRecording := true;
      startTime := Some(now);
      notices := notices + [RecordingStarted];
      r := Success(mimeType);
    }

    /** `stopRecording` (script.js:495-508): asks a running recorder to stop
        (its `onstop` comes later) and clears the flag. */
    method StopRecording()
      requires Valid()
      modifies this`recorder, this`isRecording, this`notices
      ensures Valid() && !isRecording
      ensures recorder == if old(recorder).Some? then Some(old(recorder).value.(active := false)) else None
      ensures notices == old(notices) + [RecordingStopped]
    {
      if recorder.Some? && recorder.value.active {
        recorder := Some(recorder.value.(active := false));
      }
      isRecording := false;
      notices := notices + [RecordingStopped];
    }

    /** `toggleRecording` (script.js:363-376): stops exactly when the flag is
        set; otherwise starts, showing a notice when the start fails. */
    method ToggleRecording(video: Option<VideoElement>, display: DisplayCapture,
                           supported: string -> bool, recorderError: Option<string>, now: int)
      requires Valid()
      modifies this
      ensures Valid()
      ensures downloads == old(downloads)
      ensures old(isRecording) ==>
        && !isRecording && chunks == old(chunks) && startTime == old(startTime)
        && recorder == (if old(recorder).Some? then Some(old(recorder).value.(active := false)) else None)
        && notices == old(notices) + [RecordingStopped]
      ensures !old(isRecording) ==>
        chunks == [] && (isRecording <==> PickStream(video, display).Success? && recorderError.None?)
      ensures !old(isRecording) && isRecording ==>
        && startTime == Some(now) && recorder == Some(MediaRecorder(ChooseMime(supported), true))
        && notices == old(notices) + [RecordingStarted]
      ensures !old(isRecording) && !isRecording ==>
        && startTime == old(startTime) && recorder == old(recorder)
        && notices == old(notices) + ["Recording failed: " + StartError(video, display, recorderError)]
    {
      if !isRecording {
        var r := StartRecording(video, display, supported, recorderError, now);
        if r.Failure? {
          notices := notices + ["Recording failed: " + r.error];
        }
      } else {
        StopRecording();
      }
    }

    /** The recorder stops by itself because its stream's tracks ended (the
        user ended screen sharing, say). Nothing in script.js reacts but the
        `onstop` that follows: the flag, the chunks and the notices stay. */
    method OnStreamEnded()
      requires Valid() && recorder.Some?
      modifies this`recorder
      ensures Valid()
      ensures recorder == Some(old(recorder).value.(active := false))
    {
      recorder := Some(recorder.value.(active := false));
    }

    /** `onstop` (script.js:446-452), raised by the recorder after it stops:
        `processRecording` (script.js:541-598). With no chunks it only
        notifies; otherwise it saves the chunks joined in order as one file
        and then empties the chunks and the start time. */
    method OnStop(iso: string, now: int)
      requires Valid() && recorder.Some?
      modifies this`chunks, this`startTime, this`notices, this`downloads
      ensures Valid()
      ensures old(chunks) == [] ==>
        chunks == [] && startTime == old(startTime) && downloads == old(downloads) &&
        notices == old(notices) + [NoRecordingData]
      ensures old(chunks) != [] ==>
        && chunks == [] && startTime == None
        && downloads == old(downloads) +
             [Download(RecordingFilename(iso), BlobType(recorder.value.mimeType), Join(old(chunks)))]
        && notices == old(notices) +
             [SavedNotice(RecordingFilename(iso), ElapsedSeconds(old(startTime), now))]
      ensures old(chunks) != [] ==> |downloads[|downloads| - 1].bytes| >= |old(chunks)| > 0
    {
      if |chunks| == 0 {
        notices := notices + [NoRecordingData];
        return;
      }
      JoinNonEmptySize(chunks);
      var blob := Join(chunks);
      var filename := RecordingFilename(iso);
      downloads := downloads + [Download(filename, BlobType(recorder.value.mimeType), blob)];
      notices := notices + [SavedNotice(filename, ElapsedSeconds(startTime, now))];
      chunks := [];
      startTime := None;
    }
  }

  /** A recorder that has started a screen recording. */
  method StartedRecorder() returns (rec: Recorder)
    ensures fresh(rec) && rec.Valid()
    ensures rec.isRecording && rec.chunks == [] && rec.downloads == []
    ensures rec.recorder.Some? && rec.recorder.value.active
  {
    rec := new Recorder();
    var started := rec.StartRecording(None, DisplayGranted, t => t == Webm, None, 0);
  }

  /** Three chunks arrive, with an empty one and a missing one in between. */
  method DeliverChunks(rec: Recorder, c1: seq<byte>, c2: seq<byte>, c3: seq<byte>)
    requires rec.Valid() && rec.chunks == []
    requires |c1| > 0 && |c2| > 0 && |c3| > 0
    modifies rec`chunks
    ensures rec.Valid() && rec.chunks == [c1, c2, c3]
  {
    rec.OnDataAvailable(Some(c1));
    rec.OnDataAvailable(Some([]));
    rec.OnDataAvailable(Some(c2));
    rec.OnDataAvailable(None);
    rec.OnDataAvailable(Some(c3));
    assert rec.chunks == [c1, c2, c3];
  }

  /** A session that receives three chunks, with an empty one and a missing
      one in between, saves exactly the three chunks' bytes in arrival order. */
  method RecordThreeChunks(c1: seq<byte>, c2: seq<byte>, c3: seq<byte>, iso: string)
    returns (saved: seq<byte>, name: string)
    requires |c1| > 0 && |c2| > 0 && |c3| > 0
    ensures saved == c1 + c2 + c3
    ensures name == RecordingFilename(iso)
  {
    var rec := StartedRecorder();
    DeliverChunks(rec, c1, c2, c3);
    rec.StopRecording();
    assert rec.downloads == [] && rec.recorder.Some?;
    ghost var mime := BlobType(rec.recorder.value.mimeType);
    rec.OnStop(iso, 5000);
    assert rec.downloads == [Download(RecordingFilename(iso), mime, Join([c1, c2, c3]))];
    JoinThree(c1, c2, c3);
    saved := rec.downloads[0].bytes;
    name := rec.downloads[0].filename;
  }

  /** A recording whose screen sharing ends after one chunk: the recorder
      stops by itself and `onstop` saves the file, while the flag stays set. */
  method SharingEnded(c: seq<byte>, iso: string) returns (rec: Recorder)
    requires |c| > 0
    ensures fresh(rec) && rec.Valid()
    ensures rec.isRecording && |rec.downloads| == 1
  {
    rec := StartedRecorder();
    rec.OnDataAvailable(Some(c));
    assert rec.chunks == [c] && rec.downloads == [];
    rec.OnStreamEnded();
    assert rec.isRecording && rec.chunks != [] && rec.recorder.Some?;
    rec.OnStop(iso, 2000);
  }

  /** Screen sharing ends during a recording: the file is saved, yet the
      flag stays set, so the next toggle stops again. It saves no second
      file and shows "Recording stopped". */
  method SharingEndedThenToggle(c: seq<byte>, iso: string)
    returns (flaggedAfterSave: bool, files: nat, lastNotice: string)
    requires |c| > 0
    ensures flaggedAfterSave
    ensures files == 1
    ensures lastNotice == RecordingStopped
  {
    var rec := SharingEnded(c, iso);
    flaggedAfterSave := rec.isRecording;
    rec.ToggleRecording(None, DisplayGranted, t => true, None, 3000);
    files := |rec.downloads|;
    lastNotice := rec.notices[|rec.notices| - 1];
  }

  /** A session that receives no data saves no file: stopping it shows
      "No recording data available". */
  method StopWithoutData(iso: string) returns (files: nat, lastNotice: string)
    ensures files == 0
    ensures lastNotice == NoRecordingData
  {
    var rec := new Recorder();
    var started := rec.StartRecording(None, DisplayGranted, t => false, None, 0);
    assert started == Success(Mp4);
    rec.StopRecording();
    rec.OnStop(iso, 1000);
    files := |rec.downloads|;
    lastNotice := rec.notices[|rec.notices| - 1];
  }
}
