/** The vibration that follows a guided meditation's loudness
    (`cordis/Services/HapticManager.swift`). `start` creates a haptic engine and a player
    for one long continuous event of intensity 0.3 and sharpness 0.1, `updateAmplitude`
    sends the player an intensity control and a sharpness control that grow linearly with
    the amplitude, and `stop` releases both. Core Haptics multiplies the event's intensity
    by the intensity control and adds the sharpness control to its sharpness. Whether
    the hardware supports haptics is fixed when the manager is made; the user can switch
    the vibration off. Which framework call fails is an input; the engine and player are
    represented by whether they exist and by the control values last sent to the player. */
module Haptics {
  import opened Wrappers

  /** A pattern player: whether it started, and the dynamic control values last sent to
      it (an intensity multiplier and a sharpness offset). */
  datatype Player = Player(running: bool, intensityControl: real, sharpnessControl: real)

  datatype Haptics = Haptics(isEnabled: bool, isSupported: bool, engine: bool, player: Option<Player>)

  /** A new manager: enabled, with no engine or player. */
  function Haptics0(supported: bool): (h: Haptics)
    ensures h.isEnabled && h.isSupported == supported && Inv(h)
  {
    Haptics(true, supported, false, None)
  }

  /** A player only exists next to an engine, and an engine only on supporting hardware. */
  predicate Inv(h: Haptics) {
    && (h.player.Some? ==> h.engine)
    && (h.engine ==> h.isSupported)
  }

  /** The intensity and sharpness of the continuous event `start` plays. */
  const BaseIntensity: real := 0.3
  const BaseSharpness: real := 0.1

  /** The control values a new player has before any is sent: no scaling, no offset. */
  const DefaultIntensityControl: real := 1.0
  const DefaultSharpnessControl: real := 0.0

  /** What a player makes felt: the base event's intensity scaled by the intensity
      control, and its sharpness shifted by the sharpness control. */
  function Felt(p: Player): (real, real) {
    (BaseIntensity * p.intensityControl, BaseSharpness + p.sharpnessControl)
  }

  /** The control values sent for an amplitude: amplitude 0 sends (0.3, 0.1) and
      amplitude 1 sends (1.0, 0.7). */
  function Mapping(amplitude: real): (p: (real, real))
    ensures 0.0 <= amplitude <= 1.0 ==> 0.3 <= p.0 <= 1.0 && 0.1 <= p.1 <= 0.7
    ensures amplitude == 0.0 ==> p == (0.3, 0.1)
    ensures amplitude == 1.0 ==> p == (1.0, 0.7)
  {
    (0.3 + amplitude * 0.7, 0.1 + amplitude * 0.6)
  }

  /** Louder sends a larger multiplier and a larger offset, and different amplitudes
      send different controls. */
  lemma MappingMonotone(a: real, b: real)
    ensures a < b <==> Mapping(a).0 < Mapping(b).0
    ensures a < b <==> Mapping(a).1 < Mapping(b).1
    ensures Mapping(a) == Mapping(b) <==> a == b
  {
  }

  /** What an update makes felt: an amplitude in [0, 1] gives an intensity between 0.09
      and the base event's 0.3, never stronger than before the first update, and a
      sharpness between 0.2 and 0.8. */
  lemma FeltAfterUpdate(running: bool, amplitude: real)
    requires 0.0 <= amplitude <= 1.0
    ensures var f := Felt(Player(running, Mapping(amplitude).0, Mapping(amplitude).1));
      && f.0 == BaseIntensity * (0.3 + amplitude * 0.7)
      && 0.09 <= f.0 <= BaseIntensity
      && f.1 == 0.2 + amplitude * 0.6
      && 0.2 <= f.1 <= 0.8
    ensures Felt(Player(running, Mapping(0.0).0, Mapping(0.0).1)) == (0.09, 0.2)
    ensures Felt(Player(running, Mapping(1.0).0, Mapping(1.0).1)) == (BaseIntensity, 0.8)
  {
  }

  /** The amplitude that an intensity control was sent for. */
  function AmplitudeOf(intensity: real): real {
    (intensity - 0.3) / 0.7
  }

  lemma AmplitudeOfMapping(a: real)
    ensures AmplitudeOf(Mapping(a).0) == a
  {
  }

  /** The step at which `start` fails, if any. */
  datatype StartFailure = NoFailure | EngineCreate | EngineStart | PlayerCreate | PlayerStart

  /** `start`: nothing unless supported and enabled. Otherwise a new engine replaces the
      old one once it is created, a new player replaces the old one once it is created,
      and the player, once it starts, plays the base event with its controls at their
      defaults. */
  function Start(h: Haptics, failure: StartFailure): (r: Haptics)
    ensures !(h.isSupported && h.isEnabled) || failure == EngineCreate ==> r == h
    ensures h.isSupported && h.isEnabled && failure == NoFailure ==>
              && r.engine && r.player == Some(Player(true, DefaultIntensityControl, DefaultSharpnessControl))
              && Felt(r.player.value) == (BaseIntensity, BaseSharpness)
    ensures h.isSupported && h.isEnabled && failure == PlayerStart ==>
              r.engine && r.player == Some(Player(false, DefaultIntensityControl, DefaultSharpnessControl))
    ensures h.isSupported && h.isEnabled && (failure == EngineStart || failure == PlayerCreate) ==>
              r == h.(engine := true)
    ensures r.isEnabled == h.isEnabled && r.isSupported == h.isSupported
    ensures Inv(h) ==> Inv(r)
  {
    if !(h.isSupported && h.isEnabled) then h
    else
      match failure
      case EngineCreate => h
      case EngineStart => h.(engine := true)
      case PlayerCreate => h.(engine := true)
      case PlayerStart => h.(engine := true, player := Some(Player(false, DefaultIntensityControl, DefaultSharpnessControl)))
      case NoFailure => h.(engine := true, player := Some(Player(true, DefaultIntensityControl, DefaultSharpnessControl)))
  }

  /** `updateAmplitude`: with support, the switch on and a player, the mapped control
      values are sent (`sent` is whether sending succeeds); otherwise nothing happens. */
  function UpdateAmplitude(h: Haptics, amplitude: real, sent: bool): (r: Haptics)
    ensures !(h.isSupported && h.isEnabled && h.player.Some?) || !sent ==> r == h
    ensures h.isSupported && h.isEnabled && h.player.Some? && sent ==>
              && r.player.Some? && r.player.value.running == h.player.value.running
              && (r.player.value.intensityControl, r.player.value.sharpnessControl) == Mapping(amplitude)
              && r.(player := h.player) == h
  {
    if !(h.isSupported && h.isEnabled && h.player.Some?) || !sent then h
    else
      var p := Mapping(amplitude);
      h.(player := Some(h.player.value.(intensityControl := p.0, sharpnessControl := p.1)))
  }

  /** What the player makes felt stays at or below the base event's intensity and
      within Core Haptics' [0, 1] scale: intensity in [0.09, 0.3], sharpness in
      [0.1, 0.8]. */
  predicate InRange(h: Haptics) {
    h.player.Some? ==>
      && 0.09 <= Felt(h.player.value).0 <= BaseIntensity
      && 0.1 <= Felt(h.player.value).1 <= 0.8
  }

  lemma UpdateKeepsInRange(h: Haptics, amplitude: real, sent: bool)
    requires InRange(h) && 0.0 <= amplitude <= 1.0
    ensures InRange(UpdateAmplitude(h, amplitude, sent))
  {
  }

  lemma StartKeepsInRange(h: Haptics, failure: StartFailure)
    requires InRange(h)
    ensures InRange(Start(h, failure))
  {
  }

  /** `stop`: no player and no engine afterwards, whatever there was. */
  function Stop(h: Haptics): (r: Haptics)
    ensures !r.engine && r.player.None? && Inv(r) && InRange(r)
    ensures r.isEnabled == h.isEnabled && r.isSupported == h.isSupported
  {
    h.(player := None, engine := false)
  }

  /** Stopping twice is stopping once, and stopping a manager that never started changes
      nothing. */
  lemma StopIdempotent(h: Haptics, supported: bool)
    ensures Stop(Stop(h)) == Stop(h)
    ensures Stop(Haptics0(supported)) == Haptics0(supported)
  {
  }
}
