/** The live video feed of `BabyMonitorApp` (script.js:968-1204): a
    document-store subscription whose `video-url` field is bound to the
    `#babyVideo` element, and four panels of which `showVideoState` shows at
    most one. Store callbacks, media-element events and the 10-second timer
    are method calls made by the environment. */
module LiveSource {
  import opened Wrappers

  /** A panel's `style.display`: `'none'`, `'flex'` or `'block'`. */
  datatype Display = Hidden | Flex | Block

  /** The panels in the order `showVideoState` lists them (script.js:1166). */
  const LoadingPanel: nat := 0   // #videoLoading
  const VideoPanel: nat := 1     // #babyVideo
  const FallbackPanel: nat := 2  // #fallbackCrib
  const ErrorPanel: nat := 3     // #videoError

  /** The panel a state name shows; an unknown name shows none. */
  function PanelFor(state: string): (p: Option<nat>)
    ensures p.Some? <==> state in {"loading", "video", "fallback", "error"}
    ensures p.Some? ==> p.value < 4
  {
    if state == "loading" then Some(LoadingPanel)
    else if state == "video" then Some(VideoPanel)
    else if state == "fallback" then Some(FallbackPanel)
    else if state == "error" then Some(ErrorPanel)
    else None
  }

  /** Loading and error panels are shown as `flex`, the others as `block`. */
  function ShownStyle(panel: nat): Display
  {
    if panel == LoadingPanel || panel == ErrorPanel then Flex else Block
  }

  /** No two panels are shown at once. */
  ghost predicate AtMostOneShown(d: seq<Display>)
  {
    forall i, j :: 0 <= i < j < |d| ==> d[i] == Hidden || d[j] == Hidden
  }

  /** The four panels after `showVideoState(state)`, given which of the
      four elements exist in the page. */
  function Panels(present: seq<bool>, state: string): (d: seq<Display>)
    requires |present| == 4
    ensures |d| == 4 && AtMostOneShown(d)
    ensures forall i :: 0 <= i < 4 && d[i] != Hidden ==> present[i] && PanelFor(state) == Some(i)
  {
    seq(4, i requires 0 <= i < 4 =>
      if present[i] && PanelFor(state) == Some(i) then ShownStyle(i) else Hidden)
  }

  /** The state a set of panels displays: the name of the one shown panel. */
  function ShownState(d: seq<Display>): Option<string>
    requires |d| == 4
  {
    if d[LoadingPanel] == Flex then Some("loading")
    else if d[VideoPanel] == Block then Some("video")
    else if d[FallbackPanel] == Block then Some("fallback")
    else if d[ErrorPanel] == Flex then Some("error")
    else None
  }

  /** A known state whose element exists is what the panels then display;
      an unknown state leaves every panel hidden. */
  lemma PanelsShowTheirState(present: seq<bool>, state: string)
    requires |present| == 4
    ensures PanelFor(state).Some? && present[PanelFor(state).value] ==>
      ShownState(Panels(present, state)) == Some(state)
    ensures PanelFor(state).None? ==> Panels(present, state) == [Hidden, Hidden, Hidden, Hidden]
  {
    var d := Panels(present, state);
    if PanelFor(state).None? {
      assert forall i :: 0 <= i < 4 ==> d[i] == Hidden;
    }
  }

  /** A `video-url` field value: missing, a string, or another primitive. */
  datatype FieldValue = Missing | Str(s: string) | Num(n: int) | Flag(b: bool)

  /** JavaScript truthiness of a field value: the falsy ones are a missing
      field (`undefined`), `''`, `0` and `false`. */
  function Truthy(v: FieldValue): (t: bool)
    ensures !t <==> v in {Missing, Str(""), Num(0), Flag(false)}
  {
    match v
    case Missing => false
    case Str(s) => s != ""
    case Num(n) => n != 0
    case Flag(b) => b
  }

  /** What a store subscription delivers: a snapshot of an existing
      document with its `video-url` field, a snapshot of a missing
      document, or a call of the error callback. */
  datatype Snapshot = Document(url: FieldValue) | NoDocument | ListenFailed

  /** The label and message of a media error (script.js:1067-1093), from
      the element's `error.code`, or with no `error` object at all. */
  datatype VideoError = VideoError(code: string, message: string)

  function MediaErrorInfo(error: Option<int>): (e: VideoError)
    ensures error.None? ==> e == VideoError("UNKNOWN", "Video feed unavailable")
    ensures e.code == "UNKNOWN" <==> error.None? || !(1 <= error.value <= 4)
    ensures error.Some? && !(1 <= error.value <= 4) ==> e == VideoError("UNKNOWN", "Unknown video error")
  {
    match error
    case None => VideoError("UNKNOWN", "Video feed unavailable")
    case Some(code) =>
      if code == 1 then VideoError("ABORTED", "Video loading aborted")
      else if code == 2 then VideoError("NETWORK", "Network error loading video")
      else if code == 3 then VideoError("DECODE", "Video format not supported")
      else if code == 4 then VideoError("SRC_NOT_SUPPORTED", "Video source not supported")
      else VideoError("UNKNOWN", "Unknown video error")
  }

  /** The `MediaError` code a label stands for (HTML's MEDIA_ERR_ABORTED = 1,
      MEDIA_ERR_NETWORK = 2, MEDIA_ERR_DECODE = 3, MEDIA_ERR_SRC_NOT_SUPPORTED = 4). */
  function CodeOfLabel(name: string): Option<int>
  {
    if name == "ABORTED" then Some(1)
    else if name == "NETWORK" then Some(2)
    else if name == "DECODE" then Some(3)
    else if name == "SRC_NOT_SUPPORTED" then Some(4)
    else None
  }

  /** Each known code gets its own label, and the label gives the code back. */
  lemma MediaErrorLabelRoundTrip(code: int)
    requires 1 <= code <= 4
    ensures CodeOfLabel(MediaErrorInfo(Some(code)).code) == Some(code)
  {
  }

  /** The code a message reports, read back from the message shown. */
  function CodeOfMessage(message: string): Option<int>
  {
    if message == "Video loading aborted" then Some(1)
    else if message == "Network error loading video" then Some(2)
    else if message == "Video format not supported" then Some(3)
    else if message == "Video source not supported" then Some(4)
    else None
  }

  /** Each known code gets its own message, which gives the code back; the
      message for no error object or an unknown code names no code. */
  lemma MediaErrorMessageRoundTrip(error: Option<int>)
    ensures error.Some? && 1 <= error.value <= 4 ==>
      CodeOfMessage(MediaErrorInfo(error).message) == Some(error.value)
    ensures CodeOfMessage(MediaErrorInfo(error).message).None? <==>
      error.None? || !(1 <= error.value <= 4)
  {
  }

  /** `s` written `k` times. */
  function Repeat(s: seq<string>, k: nat): (r: seq<string>)
    ensures |r| == |s| * k
  {
    if k == 0 then [] else Repeat(s, k - 1) + s
  }

  const TimeoutNotice: string := "Video loading timeout, showing placeholder"

  class VideoFeed {
    const present: seq<bool>          // which of the four panel elements exist
    const display: array<Display>     // their `style.display`
    var videoUrl: FieldValue          // `this.videoUrl`; `Missing` stands for null
    var src: Option<string>           // the video element's `src` attribute
    var listenerGroups: nat           // times `setupVideo` added its listeners
    var pendingTimeouts: nat          // 10-second timers armed and not yet fired
    var live: set<nat>                // subscriptions the store still calls back
    var handle: Option<nat>           // `this.firestoreUnsubscribe`
    var nextId: nat
    var unsubscribeCalls: nat
    var notices: seq<string>          // every notification shown, oldest first

    ghost predicate Valid()
      reads this, display
    {
      && |present| == 4 && display.Length == 4
      && (forall i :: 0 <= i < 4 && !present[i] ==> display[i] == Hidden)
      && AtMostOneShown(display[..])
      && (handle.Some? ==> handle.value in live)
      && (forall id :: id in live ==> id < nextId)
    }

    /** The page's four panels, all hidden, with no subscription yet. */
    constructor (present: seq<bool>)
      requires |present| == 4
      ensures Valid() && fresh(display) && this.present == present
      ensures display[..] == [Hidden, Hidden, Hidden, Hidden]
      ensures videoUrl == Missing && src == None && listenerGroups == 0 && pendingTimeouts == 0
      ensures live == {} && handle == None && nextId == 0 && unsubscribeCalls == 0 && notices == []
    {
      this.present := present;
      display := new Display[4](_ => Hidden);
      videoUrl := Missing;
      src := None;
      listenerGroups := 0;
      pendingTimeouts := 0;
      live := {};
      handle := None;
      nextId := 0;
      unsubscribeCalls := 0;
      notices := [];
    }

    /** `showVideoState` (script.js:1159-1185): hides every panel that
        exists, then shows the one the state names, if it exists. */
    method ShowVideoState(state: string)
      requires Valid()
      modifies display
      ensures Valid()
      ensures display[..] == Panels(present, state)
    {
      for i := 0 to 4
        invariant forall k :: 0 <= k < i ==> display[k] == Hidden
        invariant forall k :: i <= k < 4 ==> display[k] == old(display[k])
      {
        if present[i] {
          display[i] := Hidden;
        }
      }
      var p := PanelFor(state);
      if p.Some? && present[p.value] {
        display[p.value] := ShownStyle(p.value);
      }
      assert display[..] == Panels(present, state);
    }

    /** `loadVideoFeed` (script.js:982-1017): shows the loading panel and
        subscribes to the document; a subscription that throws shows the
        error panel. A new subscription replaces the handle without
        releasing the one it held. */
    method LoadVideoFeed(subscribeOk: bool)
      requires Valid()
      modifies this, display
      ensures Valid()
      ensures videoUrl == old(videoUrl) && src == old(src) && notices == old(notices)
      ensures listenerGroups == old(listenerGroups) && pendingTimeouts == old(pendingTimeouts)
      ensures unsubscribeCalls == old(unsubscribeCalls)
      ensures subscribeOk ==>
        && nextId == old(nextId) + 1 && live == old(live) + {old(nextId)}
        && handle == Some(old(nextId))
        && display[..] == Panels(present, "loading")
      ensures !subscribeOk ==>
        && nextId == old(nextId) && live == old(live) && handle == old(handle)
        && display[..] == Panels(present, "error")
      ensures old(live) <= live
    {
      ShowVideoState("loading");
      if !subscribeOk {
        ShowVideoState("error");
        return;
      }
      live := live + {nextId};
      handle := Some(nextId);
      nextId := nextId + 1;
    }

    /** `initializeVideoFeed` (script.js:968-980): loads the feed once the
        database handle exists; otherwise it asks to be called again a second
        later (`retryLater`) and changes nothing. */
    method InitializeVideoFeed(dbReady: bool, subscribeOk: bool) returns (retryLater: bool)
      requires Valid()
      modifies this, display
      ensures Valid()
      ensures retryLater <==> !dbReady
      ensures !dbReady ==>
        && live == old(live) && handle == old(handle) && nextId == old(nextId)
        && display[..] == old(display[..])
      ensures dbReady && subscribeOk ==>
        live == old(live) + {old(nextId)} && handle == Some(old(nextId)) &&
        display[..] == Panels(present, "loading")
      ensures dbReady && !subscribeOk ==>
        live == old(live) && handle == old(handle) && display[..] == Panels(present, "error")
      ensures videoUrl == old(videoUrl) && src == old(src) && notices == old(notices)
      ensures listenerGroups == old(listenerGroups) && pendingTimeouts == old(pendingTimeouts)
      ensures unsubscribeCalls == old(unsubscribeCalls)
      ensures dbReady ==> nextId == if subscribeOk then old(nextId) + 1 else old(nextId)
    {
      if dbReady {
        LoadVideoFeed(subscribeOk);
        retryLater := false;
      } else {
        retryLater := true;
      }
    }

    /** `retryVideoLoad` (script.js:1188-1191): subscribes again, without
        unsubscribing first. */
    method RetryVideoLoad(subscribeOk: bool)
      requires Valid()
      modifies this, display
      ensures Valid()
      ensures videoUrl == old(videoUrl) && src == old(src) && notices == old(notices)
      ensures listenerGroups == old(listenerGroups) && pendingTimeouts == old(pendingTimeouts)
      ensures unsubscribeCalls == old(unsubscribeCalls)
      ensures subscribeOk ==>
        && live == old(live) + {old(nextId)} && handle == Some(old(nextId))
        && display[..] == Panels(present, "loading")
      ensures !subscribeOk ==>
        live == old(live) && handle == old(handle) && display[..] == Panels(present, "error")
      ensures old(handle).Some? ==> old(handle).value in live
    {
      LoadVideoFeed(subscribeOk);
    }

    /** The URL `setupVideo` accepts: the element exists and the value is a
        non-empty string. */
    function Bindable(v: FieldValue): (b: bool)
      ensures b <==> |present| == 4 && present[VideoPanel] && v.Str? && Truthy(v)
    {
      |present| == 4 && present[VideoPanel] && v.Str? && v.s != ""
    }

    /** `setupVideo` (script.js:1019-1157): with no video element or no
        string URL, shows the error panel. Otherwise it clears the old source,
        adds another group of listeners, sets the new source and arms a
        10-second timer that nothing disarms. */
    method SetupVideo(v: FieldValue)
      requires Valid()
      modifies this`src, this`listenerGroups, this`pendingTimeouts, display
      ensures Valid()
      ensures Bindable(v) ==>
        && src == Some(v.s) && listenerGroups == old(listenerGroups) + 1
        && pendingTimeouts == old(pendingTimeouts) + 1 && display[..] == old(display[..])
      ensures !Bindable(v) ==>
        && src == old(src) && listenerGroups == old(listenerGroups)
        && pendingTimeouts == old(pendingTimeouts) && display[..] == Panels(present, "error")
    {
      if !present[VideoPanel] {
        ShowVideoState("error");
        return;
      }
      if !(v.Str? && v.s != "") {
        ShowVideoState("error");
        return;
      }
      src := None;
      listenerGroups := listenerGroups + 1;
      src := Some(v.s);
      pendingTimeouts := pendingTimeouts + 1;
    }

    /** The snapshot callback of subscription `from` (script.js:991-1011).
        A released subscription is no longer called back. A new truthy URL
        is stored and bound; the same URL changes nothing; a falsy one shows
        the fallback panel; a missing document or a listener error shows the
        error panel. */
    method OnSnapshot(from: nat, snap: Snapshot)
      requires Valid()
      modifies this, display
      ensures Valid()
      ensures live == old(live) && handle == old(handle) && nextId == old(nextId)
      ensures unsubscribeCalls == old(unsubscribeCalls) && notices == old(notices)
      ensures from !in old(live) || (snap.Document? && Truthy(snap.url) && snap.url == old(videoUrl)) ==>
        && videoUrl == old(videoUrl) && src == old(src) && display[..] == old(display[..])
        && listenerGroups == old(listenerGroups) && pendingTimeouts == old(pendingTimeouts)
      ensures from in old(live) && !snap.Document? ==>
        && videoUrl == old(videoUrl) && src == old(src)
        && listenerGroups == old(listenerGroups) && pendingTimeouts == old(pendingTimeouts)
        && display[..] == Panels(present, "error")
      ensures from in old(live) && snap.Document? && !Truthy(snap.url) ==>
        && videoUrl == old(videoUrl) && src == old(src)
        && listenerGroups == old(listenerGroups) && pendingTimeouts == old(pendingTimeouts)
        && display[..] == Panels(present, "fallback")
      ensures from in old(live) && snap.Document? && Truthy(snap.url) && snap.url != old(videoUrl) ==>
        && videoUrl == snap.url
        && (Bindable(snap.url) ==>
              && src == Some(snap.url.s) && listenerGroups == old(listenerGroups) + 1
              && pendingTimeouts == old(pendingTimeouts) + 1 && display[..] == old(display[..]))
        && (!Bindable(snap.url) ==>
              && src == old(src) && listenerGroups == old(listenerGroups)
              && pendingTimeouts == old(pendingTimeouts) && display[..] == Panels(present, "error"))
    {
      if from !in live {
        return;
      }
      match snap
      case NoDocument =>
        ShowVideoState("error");
      case ListenFailed =>
        ShowVideoState("error");
      case Document(v) =>
        if Truthy(v) && v != videoUrl {
          videoUrl := v;
          SetupVideo(v);
        } else if !Truthy(v) {
          ShowVideoState("fallback");
        }
    }

    /** An event of the video element reaches every group of listeners
        `setupVideo` has added: each shows `state` and then the notices in
        `each`. */
    method RunListeners(state: string, each: seq<string>)
      requires Valid()
      modifies this`notices, display
      ensures Valid()
      ensures listenerGroups > 0 ==> display[..] == Panels(present, state)
      ensures listenerGroups == 0 ==> display[..] == old(display[..])
      ensures notices == old(notices) + Repeat(each, listenerGroups)
    {
      for k := 0 to listenerGroups
        invariant Valid()
        invariant k > 0 ==> display[..] == Panels(present, state)
        invariant k == 0 ==> display[..] == old(display[..])
        invariant notices == old(notices) + Repeat(each, k)
      {
        ShowVideoState(state);
        notices := notices + each;
      }
    }

    /** `loadstart` (script.js:1041-1044): the loading panel. */
    method OnLoadStart()
      requires Valid()
      modifies this`notices, display
      ensures Valid() && notices == old(notices)
      ensures listenerGroups > 0 ==> display[..] == Panels(present, "loading")
      ensures listenerGroups == 0 ==> display[..] == old(display[..])
    {
      RunListeners("loading", []);
    }

    /** `canplay` (script.js:1046-1062): the video panel. */
    method OnCanPlay()
      requires Valid()
      modifies this`notices, display
      ensures Valid() && notices == old(notices)
      ensures listenerGroups > 0 ==> display[..] == Panels(present, "video")
      ensures listenerGroups == 0 ==> display[..] == old(display[..])
    {
      RunListeners("video", []);
    }

    /** `error` (script.js:1064-1114): the fallback panel and a notice with
        the error's message, once per group of listeners. */
    method OnVideoError(code: Option<int>)
      requires Valid()
      modifies this`notices, display
      ensures Valid()
      ensures listenerGroups > 0 ==> display[..] == Panels(present, "fallback")
      ensures listenerGroups == 0 ==> display[..] == old(display[..])
      ensures notices == old(notices) +
        Repeat([MediaErrorInfo(code).message + ", showing placeholder"], listenerGroups)
    {
      RunListeners("fallback", [MediaErrorInfo(code).message + ", showing placeholder"]);
    }

    /** One armed 10-second timer fires (script.js:1150-1156): if the element
        has no data yet (`readyState === 0`) it shows the fallback panel,
        whatever has happened since it was armed. */
    method OnTimeout(readyState: nat)
      requires Valid() && pendingTimeouts > 0
      modifies this`pendingTimeouts, this`notices, display
      ensures Valid()
      ensures pendingTimeouts == old(pendingTimeouts) - 1
      ensures readyState == 0 ==>
        display[..] == Panels(present, "fallback") && notices == old(notices) + [TimeoutNotice]
      ensures readyState != 0 ==> display[..] == old(display[..]) && notices == old(notices)
    {
      pendingTimeouts := pendingTimeouts - 1;
      if readyState == 0 {
        ShowVideoState("fallback");
        notices := notices + [TimeoutNotice];
      }
    }

    /** `cleanup` (script.js:1194-1204): releases the held subscription once
        and forgets it, then empties the element's source. */
    method Cleanup()
      requires Valid()
      modifies this`live, this`handle, this`unsubscribeCalls, this`src
      ensures Valid() && handle == None
      ensures old(handle).Some? ==>
        live == old(live) - {old(handle).value} && unsubscribeCalls == old(unsubscribeCalls) + 1
      ensures old(handle).None? ==> live == old(live) && unsubscribeCalls == old(unsubscribeCalls)
      ensures src == if present[VideoPanel] then Some("") else old(src)
    {
      if handle.Some? {
        live := live - {handle.value};
        unsubscribeCalls := unsubscribeCalls + 1;
        handle := None;
      }
      if present[VideoPanel] {
        src := Some("");
      }
    }
  }

  const AllPanels: seq<bool> := [true, true, true, true]

  /** The same URL delivered twice is bound once: one group of listeners and
      one timer. */
  method RepeatedUrlBindsOnce(url: string) returns (binds: nat, timers: nat)
    requires url != ""
    ensures binds == 1 && timers == 1
  {
    var feed := new VideoFeed(AllPanels);
    feed.LoadVideoFeed(true);
    feed.OnSnapshot(0, Document(Str(url)));
    feed.OnSnapshot(0, Document(Str(url)));
    binds, timers := feed.listenerGroups, feed.pendingTimeouts;
  }

  /** A missing document shows the error panel; a later snapshot without a
      URL moves on to the fallback panel. */
  method MissingThenEmpty() returns (afterMissing: seq<Display>, afterEmpty: seq<Display>)
    ensures afterMissing == [Hidden, Hidden, Hidden, Flex]
    ensures afterEmpty == [Hidden, Hidden, Block, Hidden]
  {
    var feed := new VideoFeed(AllPanels);
    feed.LoadVideoFeed(true);
    feed.OnSnapshot(0, NoDocument);
    afterMissing := feed.display[..];
    feed.OnSnapshot(0, Document(Missing));
    afterEmpty := feed.display[..];
  }

  /** Cleaning up twice releases the subscription once. */
  method CleanupTwice() returns (calls: nat, stillLive: set<nat>)
    ensures calls == 1 && stillLive == {}
  {
    var feed := new VideoFeed(AllPanels);
    feed.LoadVideoFeed(true);
    feed.Cleanup();
    feed.Cleanup();
    calls, stillLive := feed.unsubscribeCalls, feed.live;
  }

  /** A retry leaks the first subscription: after cleanup it is still live,
      and its callbacks still change the panels. */
  method RetryLeaksSubscription() returns (stillLive: set<nat>, shown: seq<Display>)
    ensures stillLive == {0}
    ensures shown == [Hidden, Hidden, Hidden, Flex]
  {
    var feed := new VideoFeed(AllPanels);
    feed.LoadVideoFeed(true);
    feed.RetryVideoLoad(true);
    feed.Cleanup();
    stillLive := feed.live;
    feed.OnSnapshot(0, NoDocument);
    shown := feed.display[..];
  }

  /** Binding a second URL leaves the first URL's timer armed: when it
      fires before the second video has data it shows the fallback panel. */
  method StaleTimeoutAfterRebind(a: string, b: string) returns (shown: seq<Display>, timersLeft: nat)
    requires a != "" && b != "" && a != b
    ensures shown == [Hidden, Hidden, Block, Hidden]
    ensures timersLeft == 1
  {
    var feed := new VideoFeed(AllPanels);
    feed.LoadVideoFeed(true);
    feed.OnSnapshot(0, Document(Str(a)));
    feed.OnSnapshot(0, Document(Str(b)));
    feed.OnTimeout(0);
    shown, timersLeft := feed.display[..], feed.pendingTimeouts;
  }
}
