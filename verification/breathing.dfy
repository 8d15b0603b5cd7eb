/** The 4-7-8 breathing session (`cordis/Views/MeditationView.swift`): a four-minute
    countdown ticking once a second while running, with the breathing phase rotating
    through inhale, hold, exhale and rest. The repeating timer is the `running` flag:
    starting invalidates any previous timer before scheduling one, so there is never
    more than one, and pausing or finishing invalidates it.

    The phase is advanced by testing the seconds left against the current phase's
    length, not the time spent in the phase, so phases do not last their nominal
    lengths. `Tick` models that rule as written; `PacedTick` is a corrected rule in
    which every phase lasts exactly its length. */
module Breathing {
  import opened Wrappers
  import opened Text

  datatype Phase = Phase(text: string, seconds: int, key: string)

  /** The phase table; the lengths are seconds. */
  const Phases: seq<Phase> := [
    Phase("Inhala", 4, "meditation_inhale"),
    Phase("Mantén", 7, "meditation_hold"),
    Phase("Exhala", 8, "meditation_exhale"),
    Phase("Respira normal", 4, "meditation_breathe")
  ]

  const SessionSeconds: int := 4 * 60

  predicate PhaseIndex(i: int) {
    0 <= i < |Phases|
  }

  datatype BreathState = BreathState(secondsLeft: int, phase: int, running: bool, complete: bool)

  /** The state when the sheet opens. */
  const BreathStart: BreathState := BreathState(SessionSeconds, 0, false, false)

  /** `iniciar`: running, with a single timer whatever was running before. */
  function Start(b: BreathState): (r: BreathState)
    ensures r.running
    ensures r.secondsLeft == b.secondsLeft && r.phase == b.phase && r.complete == b.complete
  {
    b.(running := true)
  }

  /** Pressing start twice schedules no second timer. */
  lemma StartTwiceIsStartOnce(b: BreathState)
    ensures Start(Start(b)) == Start(b)
  {
  }

  /** `pausar`: stops the timer and keeps the countdown and the phase. */
  function Pause(b: BreathState): (r: BreathState)
    ensures !r.running
    ensures r.secondsLeft == b.secondsLeft && r.phase == b.phase && r.complete == b.complete
  {
    b.(running := false)
  }

  /** `terminar`: stops the timer and marks the session complete. */
  function Finish(b: BreathState): (r: BreathState)
    ensures !r.running && r.complete
    ensures r.secondsLeft == b.secondsLeft && r.phase == b.phase
  {
    b.(running := false, complete := true)
  }

  /** One timer firing, as written: count down while time is left, and move to the next
      phase when the new count is a positive multiple of the current phase's length;
      with no time left, finish. */
  function Tick(b: BreathState): (r: BreathState)
    requires PhaseIndex(b.phase)
    ensures PhaseIndex(r.phase)
    ensures b.secondsLeft > 0 ==> r.secondsLeft == b.secondsLeft - 1 && r.running == b.running
    ensures b.secondsLeft <= 0 ==> r == Finish(b)
    ensures r.phase != b.phase <==>
              b.secondsLeft > 1 && (b.secondsLeft - 1) % Phases[b.phase].seconds == 0
    ensures r.phase != b.phase ==> r.phase == (b.phase + 1) % |Phases|
  {
    if b.secondsLeft > 0 then
      var s := b.secondsLeft - 1;
      if s % Phases[b.phase].seconds == 0 && s > 0 then
        b.(secondsLeft := s, phase := (b.phase + 1) % |Phases|)
      else
        b.(secondsLeft := s)
    else
      Finish(b)
  }

  /** `n` timer firings in a row. */
  function Ticks(b: BreathState, n: nat): (r: BreathState)
    requires PhaseIndex(b.phase)
    ensures PhaseIndex(r.phase)
    decreases n
  {
    if n == 0 then b else Ticks(Tick(b), n - 1)
  }

  /** While time is left each firing takes exactly one second off, never going below
      zero, and the session keeps running. */
  lemma {:induction false} TicksCountDown(b: BreathState, n: nat)
    requires PhaseIndex(b.phase) && n <= b.secondsLeft
    ensures Ticks(b, n).secondsLeft == b.secondsLeft - n >= 0
    ensures Ticks(b, n).running == b.running && Ticks(b, n).complete == b.complete
    decreases n
  {
    if n > 0 {
      TicksCountDown(Tick(b), n - 1);
    }
  }

  /** A started session shows 0:00 after 240 firings and completes on the next one. */
  lemma SessionCompletesAfterFourMinutes()
    ensures var b := Ticks(Start(BreathStart), SessionSeconds);
      b.secondsLeft == 0 && b.running && !b.complete
    ensures var b := Ticks(Start(BreathStart), SessionSeconds + 1);
      !b.running && b.complete
  {
    var b := Ticks(Start(BreathStart), SessionSeconds);
    TicksCountDown(Start(BreathStart), SessionSeconds);
    TicksSplit(Start(BreathStart), SessionSeconds, 1);
  }

  lemma {:induction false} TicksSplit(b: BreathState, m: nat, n: nat)
    requires PhaseIndex(b.phase)
    ensures Ticks(b, m + n) == Ticks(Ticks(b, m), n)
    decreases m
  {
    if m > 0 {
      TicksSplit(Tick(b), m - 1, n);
    }
  }

  /** As written, the seven-second hold that follows the first inhale lasts five
      seconds: it starts on the 4th firing and ends on the 9th. */
  lemma HoldPhaseCutShort()
    ensures Ticks(Start(BreathStart), 3).phase == 0
    ensures Ticks(Start(BreathStart), 4).phase == 1
    ensures Ticks(Start(BreathStart), 8).phase == 1
    ensures Ticks(Start(BreathStart), 9).phase == 2
  {
    var b0 := Start(BreathStart);
    TicksSplit(b0, 3, 1);
    TicksSplit(b0, 4, 4);
    TicksSplit(b0, 8, 1);
    var b3 := Ticks(b0, 3);
    assert b3 == BreathState(237, 0, true, false) by {
      assert Ticks(b0, 1) == BreathState(239, 0, true, false);
      TicksSplit(b0, 1, 1);
      TicksSplit(b0, 2, 1);
    }
    var b4 := Ticks(b0, 4);
    assert b4 == BreathState(236, 1, true, false);
    var b8 := Ticks(b0, 8);
    assert b8 == BreathState(232, 1, true, false) by {
      assert Ticks(b4, 2) == BreathState(234, 1, true, false);
      TicksSplit(b4, 2, 2);
    }
  }

  /** The phase shown: its localisation key while the session runs, the completion
      message once it has finished. */
  function ShownPhase(b: BreathState): (k: string)
    requires PhaseIndex(b.phase)
    ensures b.complete ==> k == "meditation_complete"
    ensures !b.complete && b.phase == 0 ==> k == "meditation_inhale"
    ensures !b.complete && b.phase == 1 ==> k == "meditation_hold"
    ensures !b.complete && b.phase == 2 ==> k == "meditation_exhale"
    ensures !b.complete && b.phase == 3 ==> k == "meditation_breathe"
  {
    if b.complete then "meditation_complete" else Phases[b.phase].key
  }

  /** `timeString(_:)`: minutes, a colon and two-digit seconds. */
  function TimeString(seconds: int): (r: string)
    ensures 0 <= seconds <= IntMax ==>
              && |r| >= 4 && r[|r| - 3] == ':'
              && ParseInt(r[..|r| - 3]) == Some(seconds / 60)
              && AllDigits(r[|r| - 2..]) && DigitsValue(r[|r| - 2..]) == seconds % 60
  {
    MinutesSeconds(seconds)
  }

  /** The corrected session: the time spent in the current phase is kept, and the phase
      changes when that time reaches the phase's length (unless the session is over). */
  datatype PacedState = PacedState(secondsLeft: int, phase: int, inPhase: int, running: bool, complete: bool)

  predicate PacedValid(p: PacedState) {
    PhaseIndex(p.phase) && 0 <= p.inPhase < Phases[p.phase].seconds
  }

  const PacedStart: PacedState := PacedState(SessionSeconds, 0, 0, true, false)

  function PacedTick(p: PacedState): (r: PacedState)
    requires PacedValid(p)
    ensures PacedValid(r)
    ensures p.secondsLeft > 0 ==> r.secondsLeft == p.secondsLeft - 1
    ensures r.phase != p.phase ==> r.phase == (p.phase + 1) % |Phases| && r.inPhase == 0
  {
    if p.secondsLeft > 0 then
      var s := p.secondsLeft - 1;
      var e := p.inPhase + 1;
      if e == Phases[p.phase].seconds && s > 0 then
        p.(secondsLeft := s, phase := (p.phase + 1) % |Phases|, inPhase := 0)
      else if e == Phases[p.phase].seconds then
        p.(secondsLeft := s, inPhase := 0)
      else
        p.(secondsLeft := s, inPhase := e)
    else
      p.(running := false, complete := true)
  }

  function PacedTicks(p: PacedState, n: nat): (r: PacedState)
    requires PacedValid(p)
    ensures PacedValid(r)
    decreases n
  {
    if n == 0 then p else PacedTicks(PacedTick(p), n - 1)
  }

  /** In the corrected session a phase that is not cut off by the end of the session
      lasts exactly its length: it holds for the remaining seconds of the phase and
      changes on the last of them. */
  lemma {:induction false} PacedPhaseLastsItsDuration(p: PacedState, k: nat)
    requires PacedValid(p)
    requires p.secondsLeft > Phases[p.phase].seconds - p.inPhase
    requires k <= Phases[p.phase].seconds - p.inPhase
    ensures k < Phases[p.phase].seconds - p.inPhase ==>
              PacedTicks(p, k).phase == p.phase && PacedTicks(p, k).inPhase == p.inPhase + k
    ensures k == Phases[p.phase].seconds - p.inPhase ==>
              PacedTicks(p, k).phase == (p.phase + 1) % |Phases| && PacedTicks(p, k).inPhase == 0
    ensures PacedTicks(p, k).secondsLeft == p.secondsLeft - k
    decreases k
  {
    if k > 0 {
      var q := PacedTick(p);
      if p.inPhase + 1 == Phases[p.phase].seconds {
        assert k == 1;
      } else {
        PacedPhaseLastsItsDuration(q, k - 1);
      }
    }
  }

  /** In the corrected session the hold after the first inhale lasts its seven seconds. */
  lemma PacedHoldLastsSeven()
    ensures PacedTicks(PacedStart, 4).phase == 1
    ensures PacedTicks(PacedStart, 10).phase == 1
    ensures PacedTicks(PacedStart, 11).phase == 2
  {
    PacedPhaseLastsItsDuration(PacedStart, 4);
    var p4 := PacedTicks(PacedStart, 4);
    PacedTicksSplit(PacedStart, 4, 6);
    PacedTicksSplit(PacedStart, 4, 7);
    PacedPhaseLastsItsDuration(p4, 6);
    PacedPhaseLastsItsDuration(p4, 7);
  }

  lemma {:induction false} PacedTicksSplit(p: PacedState, m: nat, n: nat)
    requires PacedValid(p)
    ensures PacedTicks(p, m + n) == PacedTicks(PacedTicks(p, m), n)
    decreases m
  {
    if m > 0 {
      PacedTicksSplit(PacedTick(p), m - 1, n);
    }
  }
}
