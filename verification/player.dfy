/** The guided-meditation player screen (`cordis/Views/GuidedMeditationPlayerView.swift`).
    It fetches the item's audio if it is not cached, drives the playback engine and the
    vibration from its buttons and seek bar, and shows the position, the time left and a
    progress bar. The screen calls the engine's seek and the cache's download as they are
    written, so a drag to the far end of the bar can leave the engine claiming to play a
    stopped node; `CorrectedStep` is the same screen with the corrected seek. The item
    is the list entry the screen was opened with. */
module MeditationPlayer {
  import opened Wrappers
  import opened Numeric
  import opened Text
  import A = AudioEngine
  import H = Haptics
  import C = CloudCache

  datatype PlayerView = PlayerView(
    engine: A.Engine,
    haptics: H.Haptics,
    isDownloading: bool,
    downloadError: Option<string>,
    isSeeking: bool,
    seekFraction: real)

  function PlayerView0(supported: bool): PlayerView {
    PlayerView(A.Engine0, H.Haptics0(supported), false, None, false, 0.0)
  }

  /** Everything the screen relies on: the engine's published state meaningful, the
      vibration manager consistent and within range, the seek fraction in [0, 1]. */
  predicate Inv(v: PlayerView) {
    && A.Inv(v.engine)
    && H.Inv(v.haptics) && H.InRange(v.haptics)
    && 0.0 <= v.seekFraction <= 1.0
  }

  lemma InitialState(supported: bool)
    ensures Inv(PlayerView0(supported)) && A.Synced(PlayerView0(supported).engine)
  {
    A.InitialState();
  }

  /** `currentAudioURL`: the cache file of the refreshed list entry with the item's
      record name, if it is there, else the cache file the item was opened with, if it is
      there. */
  function CurrentAudioFile(cloud: C.CloudState, item: C.Item): (r: Option<string>)
    ensures r.Some? ==> r.value in cloud.files
    ensures r.None? ==> item.localFile.None? || item.localFile.value !in cloud.files
    ensures item.localFile.Some? && item.localFile.value in cloud.files && r != item.localFile ==>
              var i := C.FirstIndex(cloud.meditations, item.name);
              i.Some? && r == cloud.meditations[i.value].localFile
  {
    var refreshed := C.FirstIndex(cloud.meditations, item.name);
    if refreshed.Some? && cloud.meditations[refreshed.value].localFile.Some?
       && cloud.meditations[refreshed.value].localFile.value in cloud.files
    then cloud.meditations[refreshed.value].localFile
    else if item.localFile.Some? && item.localFile.value in cloud.files then item.localFile
    else None
  }

  /** What the play button does. */
  datatype Action = PauseAction | LoadAction | ResumeAction | NoAction

  /** `togglePlayback`'s decision: pause while playing; otherwise load from the start when
      the end was reached or nothing is loaded yet, provided there is a file, and resume
      in between. */
  function Decide(e: A.Engine, file: Option<string>): (a: Action)
    ensures a == PauseAction <==> e.isPlaying
    ensures a == ResumeAction <==> !e.isPlaying && 0.0 < e.duration && e.currentTime < e.duration
    ensures a == LoadAction <==>
              !e.isPlaying && file.Some? && (e.duration <= 0.0 || e.duration <= e.currentTime)
    ensures a == NoAction <==>
              !e.isPlaying && file.None? && (e.duration <= 0.0 || e.duration <= e.currentTime)
  {
    if e.isPlaying then PauseAction
    else if e.currentTime >= e.duration && e.duration > 0.0 then
      if file.Some? then LoadAction else NoAction
    else if e.duration > 0.0 then ResumeAction
    else if file.Some? then LoadAction
    else NoAction
  }

  /** `togglePlayback`. Pausing stops the vibration; starting or resuming starts it when
      it is switched on. `openResult`, `started` and `failure` are what opening the file,
      starting the audio engine and starting the vibration come to. */
  function TogglePlayback(v: PlayerView, cloud: C.CloudState, item: C.Item,
                          openResult: Option<A.AudioFile>, started: bool, failure: H.StartFailure): (r: PlayerView)
    ensures var a := Decide(v.engine, CurrentAudioFile(cloud, item));
      && (a == PauseAction ==> r == v.(engine := A.Pause(v.engine), haptics := H.Stop(v.haptics)))
      && (a == ResumeAction ==> r.engine == A.Resume(v.engine))
      && (a == LoadAction ==> r.engine == A.LoadAndPlay(v.engine, openResult, started))
      && (a == NoAction ==> r == v)
      && (a != PauseAction && a != NoAction ==>
            r.haptics == if v.haptics.isEnabled then H.Start(v.haptics, failure) else v.haptics)
    ensures r.(engine := v.engine, haptics := v.haptics) == v
  {
    var startHaptics := if v.haptics.isEnabled then H.Start(v.haptics, failure) else v.haptics;
    match Decide(v.engine, CurrentAudioFile(cloud, item))
    case PauseAction => v.(engine := A.Pause(v.engine), haptics := H.Stop(v.haptics))
    case ResumeAction => v.(engine := A.Resume(v.engine), haptics := startHaptics)
    case LoadAction => v.(engine := A.LoadAndPlay(v.engine, openResult, started), haptics := startHaptics)
    case NoAction => v
  }

  /** The button plays when something can be played, and pauses when playing. */
  lemma ToggleFlipsPlaying(v: PlayerView, cloud: C.CloudState, item: C.Item,
                           openResult: Option<A.AudioFile>, failure: H.StartFailure)
    ensures v.engine.isPlaying ==> !TogglePlayback(v, cloud, item, openResult, true, failure).engine.isPlaying
    ensures !v.engine.isPlaying && openResult.Some? && Decide(v.engine, CurrentAudioFile(cloud, item)) != NoAction ==>
              TogglePlayback(v, cloud, item, openResult, true, failure).engine.isPlaying
  {
  }

  /** Pausing and pressing again in the middle of the audio asks the node to play from
      the same position; the engine comes back exactly as it was when it was in sync. */
  lemma PauseThenPlayResumes(v: PlayerView, cloud: C.CloudState, item: C.Item,
                             openResult: Option<A.AudioFile>, started: bool, failure: H.StartFailure)
    requires Inv(v) && v.engine.isPlaying && 0.0 < v.engine.duration && v.engine.currentTime < v.engine.duration
    ensures var w := TogglePlayback(v, cloud, item, openResult, started, failure);
      && TogglePlayback(w, cloud, item, openResult, started, failure).engine == v.engine.(node := A.Playing)
      && (A.Synced(v.engine) ==> TogglePlayback(w, cloud, item, openResult, started, failure).engine == v.engine)
  {
  }

  /** The vibration switch: flips it; switching on while playing starts the vibration,
      switching off stops it, switching on while paused does nothing more. */
  function ToggleHaptics(v: PlayerView, failure: H.StartFailure): (r: PlayerView)
    ensures r.haptics.isEnabled == !v.haptics.isEnabled
    ensures r.haptics.isEnabled && v.engine.isPlaying ==>
              r.haptics == H.Start(v.haptics.(isEnabled := true), failure)
    ensures !r.haptics.isEnabled ==> r.haptics == H.Stop(v.haptics.(isEnabled := false))
    ensures r.haptics.isEnabled && !v.engine.isPlaying ==> r.haptics == v.haptics.(isEnabled := true)
    ensures r.(haptics := v.haptics) == v
  {
    var h := v.haptics.(isEnabled := !v.haptics.isEnabled);
    if h.isEnabled && v.engine.isPlaying then v.(haptics := H.Start(h, failure))
    else if !h.isEnabled then v.(haptics := H.Stop(h))
    else v.(haptics := h)
  }

  /** A switched-off vibration has nothing running. */
  lemma SwitchedOffIsSilent(v: PlayerView, failure: H.StartFailure)
    requires v.haptics.isEnabled
    ensures var r := ToggleHaptics(v, failure);
      !r.haptics.engine && r.haptics.player.None?
  {
  }

  /** Where on the bar a drag is, as a fraction of its width, kept in [0, 1]. */
  function SeekFraction(raw: real): (f: real)
    ensures 0.0 <= f <= 1.0
    ensures 0.0 <= raw <= 1.0 ==> f == raw
  {
    Clamp(raw, 0.0, 1.0)
  }

  /** The time a drag ending at `raw` seeks to: inside the audio. */
  function SeekTarget(raw: real, duration: real): (t: real)
    requires 0.0 <= duration
    ensures 0.0 <= t <= duration
    ensures raw <= 0.0 ==> t == 0.0
    ensures 1.0 <= raw ==> t == duration
  {
    var f := SeekFraction(raw);
    FractionOf(f, duration);
    f * duration
  }

  /** While dragging, the bar follows the finger. */
  function DragChanged(v: PlayerView, raw: real): (r: PlayerView)
    ensures r.isSeeking && r.seekFraction == SeekFraction(raw)
    ensures r.(isSeeking := v.isSeeking, seekFraction := v.seekFraction) == v
  {
    v.(isSeeking := true, seekFraction := SeekFraction(raw))
  }

  /** Letting go seeks to the matching time. A release short of the far end of a
      non-empty file is a seek the engine accepts, so it keeps the engine truthful. */
  function DragEnded(v: PlayerView, raw: real): (r: PlayerView)
    requires 0.0 <= v.engine.duration
    ensures !r.isSeeking
    ensures r.engine == A.Seek(v.engine, SeekTarget(raw, v.engine.duration))
    ensures r.(isSeeking := v.isSeeking, engine := v.engine) == v
    ensures A.Inv(v.engine) && A.Synced(v.engine) && v.engine.file.Some? && 0.0 < v.engine.duration && raw < 1.0 ==>
              A.Synced(r.engine) && r.engine.currentTime == SeekTarget(raw, v.engine.duration)
  {
    var t := SeekTarget(raw, v.engine.duration);
    ReleaseAccepted(v.engine, raw);
    v.(engine := A.Seek(v.engine, t), isSeeking := false)
  }

  lemma ReleaseAccepted(e: A.Engine, raw: real)
    requires 0.0 <= e.duration
    ensures A.Inv(e) && 0.0 < e.duration && raw < 1.0 && e.file.Some? ==>
              A.SeekAccepted(e.file.value, SeekTarget(raw, e.duration))
  {
    if A.Inv(e) && 0.0 < e.duration && raw < 1.0 && e.file.Some? {
      FractionBelow(SeekFraction(raw), e.duration);
      assert SeekTarget(raw, e.duration) == SeekFraction(raw) * e.duration;
      A.SeekInsideFileAccepted(e.file.value, SeekTarget(raw, e.duration));
    }
  }

  /** Letting go at the far end of the bar while a one-second file plays seeks to its
      very end, which the engine rejects after stopping its node: right after the
      release the screen shows the pause button over a stopped node, until a completion
      (`Complete`) clears it. */
  lemma DragToEndDesyncs()
    ensures var e := A.LoadAndPlay(A.Engine0, Some(A.AudioFile(44100, 44100.0)), true);
      var v := PlayerView(e, H.Haptics0(true), false, None, true, 1.0);
      && Inv(v) && A.Synced(v.engine)
      && DragEnded(v, 1.0).engine.isPlaying && !A.Synced(DragEnded(v, 1.0).engine)
  {
    A.SeekToEndDesyncs();
  }

  /** A fraction short of all of a positive quantity is short of it. */
  lemma FractionBelow(f: real, x: real)
    requires 0.0 <= f < 1.0 && 0.0 < x
    ensures f * x < x
  {
    assert x - f * x == (1.0 - f) * x;
  }

  /** The skip-back button's target: fifteen seconds earlier, but not before the start. */
  function SkipBackTarget(t: real): (r: real)
    ensures 0.0 <= r
    ensures 15.0 <= t ==> r == t - 15.0
    ensures t <= 15.0 ==> r == 0.0
  {
    MaxReal(0.0, t - 15.0)
  }

  /** `skip back`: with a file open the position moves to the target when the target lies
      inside the file, and otherwise only the node is stopped; only the engine changes.
      In a non-empty file the target always lies inside, so the engine stays truthful. */
  function SkipBack(v: PlayerView): (r: PlayerView)
    ensures r.(engine := v.engine) == v
    ensures v.engine.file.None? ==> r == v
    ensures v.engine.file.Some? ==> r.engine == v.engine.(node := A.Stopped) || r.engine.currentTime == SkipBackTarget(v.engine.currentTime)
    ensures r.engine.isPlaying == v.engine.isPlaying && r.engine.duration == v.engine.duration
    ensures A.Inv(v.engine) && A.Synced(v.engine) && v.engine.file.Some? && 0.0 < v.engine.duration ==>
              A.Synced(r.engine) && r.engine.currentTime == SkipBackTarget(v.engine.currentTime)
  {
    var t := SkipBackTarget(v.engine.currentTime);
    SkipBackAccepted(v.engine);
    v.(engine := A.Seek(v.engine, t))
  }

  lemma SkipBackAccepted(e: A.Engine)
    ensures A.Inv(e) && 0.0 < e.duration && e.file.Some? ==>
              A.SeekAccepted(e.file.value, SkipBackTarget(e.currentTime))
  {
    if A.Inv(e) && 0.0 < e.duration && e.file.Some? {
      A.SeekInsideFileAccepted(e.file.value, SkipBackTarget(e.currentTime));
    }
  }

  /** `displayTime`: while dragging, the time under the finger, otherwise the position. */
  function DisplayTime(v: PlayerView): (t: real)
    ensures v.isSeeking ==> t == v.seekFraction * v.engine.duration
    ensures !v.isSeeking ==> t == v.engine.currentTime
  {
    if v.isSeeking then v.seekFraction * v.engine.duration else v.engine.currentTime
  }

  /** The time left shown after the minus sign: never negative, and with the time shown
      it makes up the whole length whenever the time shown is within it. */
  function Remaining(v: PlayerView): (t: real)
    ensures 0.0 <= t
    ensures DisplayTime(v) <= v.engine.duration ==> DisplayTime(v) + t == v.engine.duration
    ensures v.engine.duration <= DisplayTime(v) ==> t == 0.0
  {
    MaxReal(0.0, v.engine.duration - DisplayTime(v))
  }

  /** In a meaningful state the time shown lies inside the audio. */
  lemma DisplayTimeInside(v: PlayerView)
    requires Inv(v)
    ensures DisplayTime(v) <= v.engine.duration
  {
    ShownInside(v.isSeeking, v.seekFraction, v.engine.duration, v.engine.currentTime, DisplayTime(v));
  }

  lemma ShownInside(seeking: bool, f: real, d: real, t: real, shown: real)
    requires 0.0 <= f <= 1.0 && 0.0 <= d && t <= d
    requires shown == if seeking then f * d else t
    ensures shown <= d
  {
    if seeking {
      FractionOf(f, d);
    }
  }

  /** A part of a positive whole, over the whole, is a fraction. */
  lemma RatioOf(x: real, d: real)
    requires 0.0 <= x <= d && 0.0 < d
    ensures 0.0 <= x / d <= 1.0
  {
    var q := x / d;
    assert q * d == x;
    assert (1.0 - q) * d == d - x;
    SignOfProduct(q, d);
    SignOfProduct(1.0 - q, d);
  }

  lemma SignOfProduct(a: real, d: real)
    requires 0.0 < d && 0.0 <= a * d
    ensures 0.0 <= a
  {
  }

  /** A fraction of a non-negative quantity lies between nothing and all of it. */
  lemma FractionOf(f: real, x: real)
    requires 0.0 <= f <= 1.0 && 0.0 <= x
    ensures 0.0 <= f * x <= x
  {
    assert x - f * x == (1.0 - f) * x;
  }

  /** `progressWidth(in:)`: no bar for audio of no length; otherwise the fraction played
      (or under the finger) of the full width. */
  function ProgressWidth(v: PlayerView, width: real): (w: real)
    ensures v.engine.duration <= 0.0 ==> w == 0.0
    ensures 0.0 < v.engine.duration && v.isSeeking ==> w == v.seekFraction * width
    ensures 0.0 < v.engine.duration && !v.isSeeking ==>
              w == v.engine.currentTime / v.engine.duration * width
  {
    if v.engine.duration <= 0.0 then 0.0
    else (if v.isSeeking then v.seekFraction else v.engine.currentTime / v.engine.duration) * width
  }

  /** The bar never overflows its track while the position is not negative. */
  lemma ProgressWithinTrack(v: PlayerView, width: real)
    requires Inv(v) && 0.0 <= width && 0.0 <= v.engine.currentTime
    ensures 0.0 <= ProgressWidth(v, width) <= width
  {
    if 0.0 < v.engine.duration {
      var f := if v.isSeeking then v.seekFraction else v.engine.currentTime / v.engine.duration;
      if !v.isSeeking {
        RatioOf(v.engine.currentTime, v.engine.duration);
      }
      FractionOf(f, width);
      assert ProgressWidth(v, width) == f * width;
    }
  }

  /** `formatTime`: whole minutes, a colon and two-digit seconds of the truncated time. */
  function FormatTime(t: real): (s: string)
    ensures 0.0 <= t && TruncateToInt(t) <= IntMax ==>
              var n := TruncateToInt(t);
              && |s| >= 4 && s[|s| - 3] == ':'
              && ParseInt(s[..|s| - 3]) == Some(n / 60)
              && AllDigits(s[|s| - 2..]) && DigitsValue(s[|s| - 2..]) == n % 60
  {
    MinutesSeconds(TruncateToInt(t))
  }

  /** The message shown when the audio cannot be fetched. */
  const DownloadErrorKey: string := "meditation_download_error"

  /** `prepareAudio`: nothing to do when the item's file is cached; otherwise the audio is
      downloaded, and the error is shown exactly when that yields no file. */
  function PrepareAudio(v: PlayerView, cloud: C.CloudState, item: C.Item,
                        remote: C.Remote, copyError: Option<string>): (r: (PlayerView, C.CloudState))
    ensures item.localFile.Some? && item.localFile.value in cloud.files ==> r == (v, cloud)
    ensures !(item.localFile.Some? && item.localFile.value in cloud.files) ==>
              var d := C.Download(cloud, item, remote, copyError);
              && r.1 == d.0 && !r.0.isDownloading
              && (r.0.downloadError.Some? <==> d.1.None?)
              && r.0.(isDownloading := v.isDownloading, downloadError := v.downloadError) == v
  {
    if item.localFile.Some? && item.localFile.value in cloud.files then (v, cloud)
    else
      var d := C.Download(cloud, item, remote, copyError);
      var error := if d.1.None? then Some(DownloadErrorKey) else None;
      (v.(isDownloading := false, downloadError := error), d.0)
  }

  /** After a successful preparation the play button finds a file to play. */
  lemma PreparedAudioPlays(v: PlayerView, cloud: C.CloudState, item: C.Item,
                           remote: C.Remote, copyError: Option<string>)
    requires C.FirstIndex(cloud.meditations, item.name).Some? && !C.CacheHit(cloud, item)
    ensures var r := PrepareAudio(v, cloud, item, remote, copyError);
      r.0.downloadError.None? ==> CurrentAudioFile(r.1, item).Some?
  {
  }

  /** The play button is disabled while downloading and when a download failed for an
      item that had no cached file. */
  function PlayEnabled(v: PlayerView, item: C.Item): (b: bool)
    ensures !b <==> v.isDownloading || (item.localFile.None? && v.downloadError.Some?)
  {
    !(v.isDownloading || (item.localFile.None? && v.downloadError.Some?))
  }

  /** A new amplitude is passed on to the vibration: only the vibration changes, nothing
      happens while it is switched off, and an amplitude in [0, 1] keeps what the player
      makes felt at or below the base event's intensity, within the haptic scale. */
  function AmplitudeChanged(v: PlayerView, sent: bool): (r: PlayerView)
    ensures r.(haptics := v.haptics) == v
    ensures !v.haptics.isEnabled ==> r == v
    ensures H.InRange(v.haptics) && 0.0 <= v.engine.amplitude <= 1.0 ==> H.InRange(r.haptics)
    ensures r.haptics.isEnabled == v.haptics.isEnabled && r.haptics.engine == v.haptics.engine
  {
    v.(haptics := H.UpdateAmplitude(v.haptics, v.engine.amplitude, sent))
  }

  /** Leaving the screen stops the audio and the vibration. */
  function Disappear(v: PlayerView): (r: PlayerView)
    ensures !r.engine.isPlaying && r.engine.currentTime == 0.0
    ensures !r.haptics.engine && r.haptics.player.None?
  {
    v.(engine := A.Stop(v.engine), haptics := H.Stop(v.haptics))
  }

  /** Everything that can happen on the screen. */
  datatype Event =
    | Toggle(openResult: Option<A.AudioFile>, started: bool, failure: H.StartFailure)
    | HapticsSwitch(failure: H.StartFailure)
    | Drag(raw: real)
    | Release(raw: real)
    | Back
    | Amplitude(sent: bool)
    | Engine(ev: A.Event)
    | Leave

  function Step(v: PlayerView, cloud: C.CloudState, item: C.Item, ev: Event): PlayerView
    requires A.Inv(v.engine)
  {
    match ev
    case Toggle(o, s, f) => TogglePlayback(v, cloud, item, o, s, f)
    case HapticsSwitch(f) => ToggleHaptics(v, f)
    case Drag(raw) => DragChanged(v, raw)
    case Release(raw) => DragEnded(v, raw)
    case Back => SkipBack(v)
    case Amplitude(sent) => AmplitudeChanged(v, sent)
    case Engine(e) => v.(engine := A.Step(v.engine, e))
    case Leave => Disappear(v)
  }

  /** Every event on the screen keeps what it relies on; in particular the vibration is
      only ever fed amplitudes in [0, 1], so it stays within its range. */
  lemma StepKeepsInv(v: PlayerView, cloud: C.CloudState, item: C.Item, ev: Event)
    requires Inv(v)
    ensures Inv(Step(v, cloud, item, ev))
  {
    match ev
    case Toggle(o, s, f) =>
      H.StartKeepsInRange(v.haptics, f);
    case HapticsSwitch(f) =>
      H.StartKeepsInRange(v.haptics.(isEnabled := true), f);
    case Release(raw) =>
      A.StepKeepsInv(v.engine, A.SeekEvent(SeekTarget(raw, v.engine.duration)));
    case Back =>
      A.StepKeepsInv(v.engine, A.SeekEvent(SkipBackTarget(v.engine.currentTime)));
    case Amplitude(sent) =>
      H.UpdateKeepsInRange(v.haptics, v.engine.amplitude, sent);
    case Engine(e) =>
      A.StepKeepsInv(v.engine, e);
    case Drag(raw) =>
    case Leave =>
  }

  /** The screen with the corrected seek: releases, skips and the engine's own seeks go
      through `SafeSeek`; every other event is as on the screen. */
  function CorrectedStep(v: PlayerView, cloud: C.CloudState, item: C.Item, ev: Event): (r: PlayerView)
    requires A.Inv(v.engine)
    ensures !ev.Release? && !ev.Back? && !ev.Engine? ==> r == Step(v, cloud, item, ev)
    ensures ev.Release? ==> r == v.(engine := A.SafeSeek(v.engine, SeekTarget(ev.raw, v.engine.duration)), isSeeking := false)
    ensures ev.Back? ==> r == v.(engine := A.SafeSeek(v.engine, SkipBackTarget(v.engine.currentTime)))
    ensures ev.Engine? ==> r == v.(engine := A.SafeStep(v.engine, ev.ev))
  {
    match ev
    case Release(raw) => v.(engine := A.SafeSeek(v.engine, SeekTarget(raw, v.engine.duration)), isSeeking := false)
    case Back => v.(engine := A.SafeSeek(v.engine, SkipBackTarget(v.engine.currentTime)))
    case Engine(e) => v.(engine := A.SafeStep(v.engine, e))
    case _ => Step(v, cloud, item, ev)
  }

  /** With the corrected seek every event keeps the invariant and the engine truthful. */
  lemma CorrectedStepKeepsSynced(v: PlayerView, cloud: C.CloudState, item: C.Item, ev: Event)
    requires Inv(v) && A.Synced(v.engine)
    ensures var r := CorrectedStep(v, cloud, item, ev);
      Inv(r) && A.Synced(r.engine)
  {
    match ev
    case Release(raw) =>
      A.StepKeepsInv(v.engine, A.SeekEvent(SeekTarget(raw, v.engine.duration)));
    case Back =>
      A.StepKeepsInv(v.engine, A.SeekEvent(SkipBackTarget(v.engine.currentTime)));
    case Engine(e) =>
      A.StepKeepsInv(v.engine, e);
      A.SafeStepKeepsSynced(v.engine, e);
    case _ =>
      StepKeepsInv(v, cloud, item, ev);
  }
}
