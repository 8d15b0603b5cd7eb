/** The playback engine of the guided meditations (`cordis/Services/AudioAnalysisEngine.swift`).
    The engine plays one audio file through a player node, publishes whether it is playing,
    the position and length in seconds, and an amplitude smoothed from the loudness of each
    rendered buffer. The audio frameworks are not modelled: what the engine last asked of
    its player node is kept as `node`, opening a file and starting the engine are inputs,
    and each timer tick, buffer and interruption is one step. Times are reals.

    `Seek` stops the node before checking that the target lies inside the file, so a seek
    to the end of a playing file leaves the engine claiming to play a stopped node;
    `SafeSeek` checks first, and with it the claim is always true. */
module AudioEngine {
  import opened Wrappers
  import opened Numeric

  type Rate = r: real | r > 0.0 witness 1.0

  /** An opened file: its length in frames and its sample rate. */
  datatype AudioFile = AudioFile(length: nat, sampleRate: Rate)

  /** What the engine last asked of its player node. */
  datatype Node = Stopped | Paused | Playing

  datatype Engine = Engine(
    amplitude: real,
    isPlaying: bool,
    currentTime: real,
    duration: real,
    file: Option<AudioFile>,
    seekOffset: real,
    node: Node,
    ticking: bool)

  const Engine0: Engine := Engine(0.0, false, 0.0, 0.0, None, 0.0, Stopped, false)

  /** The weight of the previous amplitude in each smoothing step. */
  const SmoothingFactor: real := 0.3

  /** The length of a file in seconds. */
  function Duration(f: AudioFile): (d: real)
    ensures 0.0 <= d
  {
    f.length as real / f.sampleRate
  }

  /** What the engine publishes stays meaningful: the amplitude in [0, 1], the position
      never past the end, the length that of the open file, and the position timer
      running exactly while playing. */
  predicate Inv(e: Engine) {
    && 0.0 <= e.amplitude <= 1.0
    && 0.0 <= e.duration
    && e.currentTime <= e.duration
    && (e.file.Some? ==> e.duration == Duration(e.file.value))
    && (e.ticking <==> e.isPlaying)
  }

  /** When the engine says it is playing, its node is playing. */
  predicate Synced(e: Engine) {
    e.isPlaying ==> e.node == Playing
  }

  lemma InitialState()
    ensures Inv(Engine0) && Synced(Engine0)
  {
  }

  /** One smoothing step: the previous amplitude weighted 0.3 and the new loudness,
      clamped to [0, 1], weighted 0.7. */
  function Smooth(amplitude: real, rms: real): (a: real)
    ensures a - Clamp(rms, 0.0, 1.0) == SmoothingFactor * (amplitude - Clamp(rms, 0.0, 1.0))
  {
    SmoothingFactor * amplitude + (1.0 - SmoothingFactor) * Clamp(rms, 0.0, 1.0)
  }

  /** Smoothing keeps an amplitude in [0, 1] there, and a loudness in [0, 1] that the
      amplitude already equals is a fixed point. */
  lemma SmoothInRange(amplitude: real, rms: real)
    ensures 0.0 <= amplitude <= 1.0 ==> 0.0 <= Smooth(amplitude, rms) <= 1.0
    ensures amplitude == rms && 0.0 <= rms <= 1.0 ==> Smooth(amplitude, rms) == rms
  {
  }

  /** `n` smoothing steps with the same loudness. */
  function SmoothSteps(amplitude: real, rms: real, n: nat): real
    decreases n
  {
    if n == 0 then amplitude else SmoothSteps(Smooth(amplitude, rms), rms, n - 1)
  }

  function Power(x: real, n: nat): real
    decreases n
  {
    if n == 0 then 1.0 else x * Power(x, n - 1)
  }

  /** Under a steady loudness the amplitude approaches it geometrically: after `n` steps
      its distance from the clamped loudness is 0.3^n of what it was. */
  lemma {:induction false} SmoothStepsConverge(amplitude: real, rms: real, n: nat)
    ensures SmoothSteps(amplitude, rms, n) - Clamp(rms, 0.0, 1.0)
            == Power(SmoothingFactor, n) * (amplitude - Clamp(rms, 0.0, 1.0))
    decreases n
  {
    if n > 0 {
      var c := Clamp(rms, 0.0, 1.0);
      var b := Smooth(amplitude, rms);
      var p := Power(SmoothingFactor, n - 1);
      var s := SmoothSteps(amplitude, rms, n);
      SmoothStepsConverge(b, rms, n - 1);
      assert s == SmoothSteps(b, rms, n - 1);
      ScaleStep(s, c, p, b, amplitude, SmoothingFactor, Power(SmoothingFactor, n));
    }
  }

  /** One more step scales the distance once more. */
  lemma ScaleStep(s: real, c: real, p: real, b: real, a: real, k: real, q: real)
    requires s - c == p * (b - c) && b - c == k * (a - c) && q == k * p
    ensures s - c == q * (a - c)
  {
    MulAssoc(p, k, a - c);
  }

  lemma MulAssoc(x: real, y: real, z: real)
    ensures x * (y * z) == (y * x) * z
  {
  }

  /** The powers of the smoothing factor shrink towards 0. */
  lemma {:induction false} PowerShrinks(n: nat)
    ensures 0.0 < Power(SmoothingFactor, n) <= 1.0
    ensures n > 0 ==> Power(SmoothingFactor, n) <= SmoothingFactor
    decreases n
  {
    if n > 0 {
      PowerShrinks(n - 1);
    }
  }

  /** `stop`: nothing plays, the amplitude and position are 0, the file and its length
      stay. */
  function Stop(e: Engine): (r: Engine)
    ensures !r.isPlaying && !r.ticking && r.node == Stopped
    ensures r.amplitude == 0.0 && r.currentTime == 0.0
    ensures r.duration == e.duration && r.file == e.file && r.seekOffset == e.seekOffset
  {
    e.(ticking := false, node := Stopped, isPlaying := false, amplitude := 0.0, currentTime := 0.0)
  }

  /** `pause`: not playing, the position kept. */
  function Pause(e: Engine): (r: Engine)
    ensures !r.isPlaying && !r.ticking && r.node == Paused
    ensures r.(isPlaying := e.isPlaying, ticking := e.ticking, node := e.node) == e
  {
    e.(node := Paused, isPlaying := false, ticking := false)
  }

  /** `resume`: playing, the position kept. */
  function Resume(e: Engine): (r: Engine)
    ensures r.isPlaying && r.ticking && r.node == Playing
    ensures r.(isPlaying := e.isPlaying, ticking := e.ticking, node := e.node) == e
  {
    e.(node := Playing, isPlaying := true, ticking := true)
  }

  /** Pausing and resuming comes back to where playback was. */
  lemma PauseResume(e: Engine)
    requires e.isPlaying && e.ticking && e.node == Playing
    ensures Resume(Pause(e)) == e
  {
  }

  /** `loadAndPlay(url:)`: stops, then opens the file (`openResult`, `None` when that fails,
      which keeps the previous file) and plays it from the start if the engine starts. */
  function LoadAndPlay(e: Engine, openResult: Option<AudioFile>, started: bool): (r: Engine)
    ensures openResult.None? ==> r == Stop(e)
    ensures openResult.Some? ==>
              && r.file == openResult && r.duration == Duration(openResult.value)
              && r.seekOffset == 0.0 && r.currentTime == 0.0 && r.amplitude == 0.0
              && (r.isPlaying <==> started) && (r.node == Playing <==> started)
  {
    var s := Stop(e);
    match openResult
    case None => s
    case Some(f) =>
      var loaded := s.(file := Some(f), duration := Duration(f), seekOffset := 0.0);
      if started then loaded.(node := Playing, isPlaying := true, ticking := true) else loaded
  }

  /** The frame a seek starts from: the target time in frames, truncated. */
  function StartFrame(f: AudioFile, time: real): int {
    TruncateToInt(time * f.sampleRate)
  }

  /** A seek is carried out only when its start frame lies before the end of the file;
      such a target lies before the end in seconds too. */
  predicate SeekAccepted(f: AudioFile, time: real) {
    StartFrame(f, time) < f.length
  }

  lemma AcceptedSeekInsideFile(f: AudioFile, time: real)
    requires SeekAccepted(f, time)
    ensures time < Duration(f)
  {
    var x := time * f.sampleRate;
    assert x < f.length as real;
    DivLess(time, x, f.length as real, f.sampleRate);
  }

  /** Conversely, a target from the start up to before the end is accepted. */
  lemma SeekInsideFileAccepted(f: AudioFile, time: real)
    requires 0.0 <= time < Duration(f)
    ensures SeekAccepted(f, time)
  {
    MulLess(time, f.length as real, f.sampleRate);
  }

  lemma MulLess(t: real, len: real, k: real)
    requires 0.0 < k && t < len / k
    ensures t * k < len
  {
    assert (len / k - t) * k == len - t * k;
  }

  lemma DivLess(t: real, x: real, len: real, k: real)
    requires 0.0 < k && x == t * k && x < len
    ensures t < len / k
  {
    assert t == x / k;
    assert len / k - x / k == (len - x) / k;
  }

  /** The accepted part of a seek: play from `time`, resuming when the engine was
      playing; the node was stopped first. */
  function SeekTo(e: Engine, time: real): (r: Engine)
    ensures r.seekOffset == time && r.currentTime == time
    ensures r.isPlaying == e.isPlaying && r.ticking == e.ticking
    ensures r.node == if e.isPlaying then Playing else Stopped
    ensures r.amplitude == e.amplitude && r.duration == e.duration && r.file == e.file
  {
    var r := e.(node := Stopped, seekOffset := time, currentTime := time);
    if e.isPlaying then r.(node := Playing, isPlaying := true) else r
  }

  /** `seek(to:)` as written: with no file nothing happens; otherwise the node is stopped
      and only then is the target checked, so a rejected seek leaves the node stopped and
      the rest unchanged. */
  function Seek(e: Engine, time: real): (r: Engine)
    ensures e.file.None? ==> r == e
    ensures e.file.Some? && !SeekAccepted(e.file.value, time) ==> r == e.(node := Stopped)
    ensures e.file.Some? && SeekAccepted(e.file.value, time) ==> r == SeekTo(e, time)
  {
    match e.file
    case None => e
    case Some(f) =>
      var stopped := e.(node := Stopped);
      if !SeekAccepted(f, time) then stopped else SeekTo(e, time)
  }

  /** As written, seeking to the very end of a playing one-second file (where the seek
      bar's far end lands) returns with the engine saying it plays while its node is
      stopped; only a later `Complete` step clears the claim. */
  lemma SeekToEndDesyncs()
    ensures var f := AudioFile(44100, 44100.0);
      var e := LoadAndPlay(Engine0, Some(f), true);
      && Inv(e) && Synced(e) && e.duration == 1.0
      && !Synced(Seek(e, e.duration))
  {
    var f := AudioFile(44100, 44100.0);
    var e := LoadAndPlay(Engine0, Some(f), true);
    assert StartFrame(f, 1.0) == 44100;
  }

  /** The corrected seek: the target is checked before the node is touched, so a
      rejected seek changes nothing. */
  function SafeSeek(e: Engine, time: real): (r: Engine)
    ensures e.file.None? ==> r == e
    ensures e.file.Some? && !SeekAccepted(e.file.value, time) ==> r == e
    ensures e.file.Some? && SeekAccepted(e.file.value, time) ==> r == Seek(e, time)
    ensures Synced(e) ==> Synced(r)
  {
    match e.file
    case None => e
    case Some(f) => if !SeekAccepted(f, time) then e else SeekTo(e, time)
  }

  /** `updateCurrentTime`, called by the timer: while playing and with a render time
      (`played`, the seconds the node has played since it was last scheduled), the
      position becomes the seek offset plus that, capped at the length, unless it would
      be negative. */
  function Tick(e: Engine, played: Option<real>): (r: Engine)
    ensures !e.isPlaying || played.None? ==> r == e
    ensures r.(currentTime := e.currentTime) == e
    ensures e.isPlaying && played.Some? && e.seekOffset + played.value >= 0.0 ==>
              r.currentTime == MinReal(e.seekOffset + played.value, e.duration)
    ensures e.currentTime <= e.duration ==> r.currentTime <= r.duration
  {
    if !e.isPlaying || played.None? then e
    else
      var total := e.seekOffset + played.value;
      if total >= 0.0 then e.(currentTime := MinReal(total, e.duration)) else e
  }

  /** `handlePlaybackComplete`: stopped at the end, silent. */
  function Complete(e: Engine): (r: Engine)
    ensures !r.isPlaying && !r.ticking && r.amplitude == 0.0 && r.currentTime == r.duration
    ensures r.node == e.node && r.file == e.file && r.duration == e.duration
  {
    e.(isPlaying := false, amplitude := 0.0, currentTime := e.duration, ticking := false)
  }

  /** A rendered buffer of loudness `rms` updates the amplitude. */
  function Sample(e: Engine, rms: real): (r: Engine)
    ensures r.(amplitude := e.amplitude) == e
    ensures 0.0 <= e.amplitude <= 1.0 ==> 0.0 <= r.amplitude <= 1.0
  {
    SmoothInRange(e.amplitude, rms);
    e.(amplitude := Smooth(e.amplitude, rms))
  }

  /** An audio-session interruption; one whose type cannot be read is `Unreadable`, and
      an end without options counts as one without `shouldResume`. */
  datatype Interruption = Began | Ended(shouldResume: bool) | Unreadable

  /** `handleInterruption`: a beginning pauses, an end resumes only when asked to. */
  function Interrupt(e: Engine, i: Interruption): (r: Engine)
    ensures i == Began ==> r == Pause(e)
    ensures i == Ended(true) ==> r == Resume(e)
    ensures i == Ended(false) || i == Unreadable ==> r == e
  {
    match i
    case Began => Pause(e)
    case Ended(shouldResume) => if shouldResume then Resume(e) else e
    case Unreadable => e
  }

  /** Everything that can happen to the engine. */
  datatype Event =
    | Load(openResult: Option<AudioFile>, started: bool)
    | PauseEvent
    | ResumeEvent
    | StopEvent
    | SeekEvent(time: real)
    | TickEvent(played: Option<real>)
    | CompleteEvent
    | SampleEvent(rms: real)
    | InterruptEvent(interruption: Interruption)

  /** The engine as written. */
  function Step(e: Engine, ev: Event): Engine {
    match ev
    case Load(openResult, started) => LoadAndPlay(e, openResult, started)
    case PauseEvent => Pause(e)
    case ResumeEvent => Resume(e)
    case StopEvent => Stop(e)
    case SeekEvent(time) => Seek(e, time)
    case TickEvent(played) => Tick(e, played)
    case CompleteEvent => Complete(e)
    case SampleEvent(rms) => Sample(e, rms)
    case InterruptEvent(i) => Interrupt(e, i)
  }

  /** The engine with the corrected seek. */
  function SafeStep(e: Engine, ev: Event): Engine {
    if ev.SeekEvent? then SafeSeek(e, ev.time) else Step(e, ev)
  }

  /** Every step, even as written, keeps what the engine publishes meaningful. */
  lemma StepKeepsInv(e: Engine, ev: Event)
    requires Inv(e)
    ensures Inv(Step(e, ev)) && Inv(SafeStep(e, ev))
  {
    if ev.SeekEvent? && e.file.Some? && SeekAccepted(e.file.value, ev.time) {
      AcceptedSeekInsideFile(e.file.value, ev.time);
    }
  }

  /** With the corrected seek, every step keeps the engine's claim to be playing true. */
  lemma SafeStepKeepsSynced(e: Engine, ev: Event)
    requires Synced(e)
    ensures Synced(SafeStep(e, ev))
  {
  }

  function SafeRun(e: Engine, evs: seq<Event>): Engine
    decreases |evs|
  {
    if |evs| == 0 then e else SafeRun(SafeStep(e, evs[0]), evs[1..])
  }

  /** Any sequence of events from a meaningful, truthful state keeps it so. */
  lemma {:induction false} SafeRunKeepsInv(e: Engine, evs: seq<Event>)
    requires Inv(e) && Synced(e)
    ensures Inv(SafeRun(e, evs)) && Synced(SafeRun(e, evs))
    decreases |evs|
  {
    if |evs| > 0 {
      StepKeepsInv(e, evs[0]);
      SafeStepKeepsSynced(e, evs[0]);
      SafeRunKeepsInv(SafeStep(e, evs[0]), evs[1..]);
    }
  }
}
