/** The earlier breathing session (`cordis/MeditationView.swift`). Countdown and phase
    rule are those of `Breathing.Tick`; instead of a completion flag this copy keeps the
    phase text in state, updating it on every phase change and replacing it with a
    closing message when the session ends. */
module LegacyBreathing {
  import opened Breathing

  const FinishedText: string := "Meditación finalizada"

  datatype LegacyBreath = LegacyBreath(secondsLeft: int, phase: int, running: bool, text: string)

  const LegacyStart: LegacyBreath := LegacyBreath(SessionSeconds, 0, false, "Inhala")

  /** The text on screen is the current phase's, or the closing message. */
  predicate TextTracksPhase(b: LegacyBreath) {
    PhaseIndex(b.phase) && (b.text == Phases[b.phase].text || b.text == FinishedText)
  }

  function LegacyStartTimer(b: LegacyBreath): (r: LegacyBreath)
    ensures r.running && r.secondsLeft == b.secondsLeft && r.phase == b.phase && r.text == b.text
  {
    b.(running := true)
  }

  function LegacyPause(b: LegacyBreath): (r: LegacyBreath)
    ensures !r.running && r.secondsLeft == b.secondsLeft && r.phase == b.phase && r.text == b.text
  {
    b.(running := false)
  }

  function LegacyFinish(b: LegacyBreath): (r: LegacyBreath)
    ensures !r.running && r.text == FinishedText
    ensures r.secondsLeft == b.secondsLeft && r.phase == b.phase
  {
    b.(running := false, text := FinishedText)
  }

  /** One firing: the same countdown and phase rule as the current session; a phase
      change also writes the new phase's text. */
  function LegacyTick(b: LegacyBreath): (r: LegacyBreath)
    requires PhaseIndex(b.phase)
    ensures PhaseIndex(r.phase)
    ensures TextTracksPhase(b) ==> TextTracksPhase(r)
    ensures r.phase != b.phase ==> r.text == Phases[r.phase].text
    ensures var t := Tick(BreathState(b.secondsLeft, b.phase, b.running, false));
      r.secondsLeft == t.secondsLeft && r.phase == t.phase && r.running == t.running
  {
    if b.secondsLeft > 0 then
      var s := b.secondsLeft - 1;
      if s % Phases[b.phase].seconds == 0 && s > 0 then
        var next := (b.phase + 1) % |Phases|;
        b.(secondsLeft := s, phase := next, text := Phases[next].text)
      else
        b.(secondsLeft := s)
    else
      LegacyFinish(b)
  }

  /** The opening text is the first phase's. */
  lemma LegacyStartTracksPhase()
    ensures TextTracksPhase(LegacyStart) && LegacyStart.text == Phases[0].text
  {
  }
}
