/** The manual pulse measurement (`cordis/Views/ManualMeasurementView.swift`): a
    three-step wizard (instructions, a 15-second count, entering the beats counted),
    the beat counter with its BPM of four times the beats, the result sheet and the
    fixed bands its label, colour and background use. Buttons are events; an event is
    only available while the screen shows its button. */
module ManualMeasurement {
  import opened Wrappers
  import opened Classification
  import opened Home

  /** The seconds the pulse is counted for; the BPM is the count times 60 / 15. */
  const CountSeconds: int := 15
  const BpmPerBeat: int := 4

  /** The quick-count buttons of the input step. */
  const QuickCounts: seq<int> := [10, 15, 20, 25]

  datatype ManualState = ManualState(step: int, beats: int, bpm: int, showResult: bool)

  const ManualStart: ManualState := ManualState(0, 0, 0, false)

  datatype ManualEvent =
    | Back            // header button: previous step, or close on the first
    | Ready           // "ready" on the instructions
    | TimerDone       // the 15-second countdown completed
    | Minus | Plus
    | Quick(count: int)
    | Save            // opens the result sheet
    | CloseResult     // the sheet's close button
    | Done            // the sheet's done button: hands the BPM to the caller

  /** The screen stays open with a new state, or closes, handing over a BPM or not. */
  datatype ManualOutcome = Stay(state: ManualState) | Close(saved: Option<int>)

  /** The states the screen can be in: a known step, a counter that is never negative,
      the BPM kept at four times the beats, and the result sheet only over a positive BPM. */
  predicate Consistent(m: ManualState) {
    && 0 <= m.step <= 2
    && 0 <= m.beats
    && m.bpm == m.beats * BpmPerBeat
    && (m.showResult ==> m.step == 2 && m.bpm > 0)
  }

  /** Whether the button for `ev` is on screen. The result sheet covers the steps. */
  predicate Available(m: ManualState, ev: ManualEvent) {
    match ev
    case Back => !m.showResult
    case Ready => m.step == 0 && !m.showResult
    case TimerDone => m.step == 1 && !m.showResult
    case Minus => m.step == 2 && !m.showResult
    case Plus => m.step == 2 && !m.showResult
    case Quick(c) => m.step == 2 && !m.showResult && c in QuickCounts
    case Save => m.step == 2 && !m.showResult && m.bpm > 0
    case CloseResult => m.showResult
    case Done => m.showResult
  }

  /** `updateBPM`: the BPM is recomputed from the beats after every counter change. */
  function WithBeats(m: ManualState, beats: int): (r: ManualState)
    ensures r.beats == beats && r.bpm == beats * BpmPerBeat
    ensures r.step == m.step && r.showResult == m.showResult
  {
    m.(beats := beats, bpm := beats * BpmPerBeat)
  }

  /** One button press. */
  function ManualStep(m: ManualState, ev: ManualEvent): (r: ManualOutcome)
    ensures ev == Back && m.step > 0 ==> r == Stay(m.(step := m.step - 1))
    ensures ev == Back && m.step <= 0 ==> r == Close(None)
    ensures ev == Ready ==> r == Stay(m.(step := 1))
    ensures ev == TimerDone ==> r == Stay(m.(step := 2))
    ensures ev == Plus ==> r == Stay(WithBeats(m, m.beats + 1))
    ensures ev == Minus && m.beats > 0 ==> r == Stay(WithBeats(m, m.beats - 1))
    ensures ev == Minus && m.beats <= 0 ==> r == Stay(m)
    ensures ev == Save ==> r == Stay(m.(showResult := true))
    ensures ev == CloseResult ==> r == Stay(m.(showResult := false))
    ensures ev.Quick? ==> r.Stay? && r.state.beats == ev.count && r.state.bpm == ev.count * 4
    ensures r.Close? && r.saved.Some? <==> ev == Done
    ensures ev == Done ==> r == Close(Some(m.bpm))
  {
    match ev
    case Back => if m.step > 0 then Stay(m.(step := m.step - 1)) else Close(None)
    case Ready => Stay(m.(step := 1))
    case TimerDone => Stay(m.(step := 2))
    case Minus => if m.beats > 0 then Stay(WithBeats(m, m.beats - 1)) else Stay(m)
    case Plus => Stay(WithBeats(m, m.beats + 1))
    case Quick(c) => Stay(WithBeats(m, c))
    case Save => Stay(m.(showResult := true))
    case CloseResult => Stay(m.(showResult := false))
    case Done => Close(Some(m.bpm))
  }

  /** Every available button keeps the screen consistent, and the BPM handed over is
      positive and four times the beats counted. */
  lemma StepKeepsConsistent(m: ManualState, ev: ManualEvent)
    requires Consistent(m) && Available(m, ev)
    ensures ManualStep(m, ev).Stay? ==> Consistent(ManualStep(m, ev).state)
    ensures ManualStep(m, ev).Close? && ManualStep(m, ev).saved.Some? ==>
              ManualStep(m, ev).saved.value > 0 && ManualStep(m, ev).saved.value % BpmPerBeat == 0
  {
  }

  /** The outcome of pressing the buttons in order: a press whose button is not shown
      changes nothing, and the screen stops at the first close. */
  function Run(m: ManualState, events: seq<ManualEvent>): ManualOutcome
    decreases |events|
  {
    if |events| == 0 then Stay(m)
    else if !Available(m, events[0]) then Run(m, events[1..])
    else
      match ManualStep(m, events[0])
      case Stay(next) => Run(next, events[1..])
      case Close(saved) => Close(saved)
  }

  /** From the opening state, any sequence of presses keeps the screen consistent, and
      whatever BPM it hands over is a positive multiple of four. */
  lemma {:induction false} RunKeepsConsistent(m: ManualState, events: seq<ManualEvent>)
    requires Consistent(m)
    ensures Run(m, events).Stay? ==> Consistent(Run(m, events).state)
    ensures Run(m, events).Close? && Run(m, events).saved.Some? ==>
              Run(m, events).saved.value > 0 && Run(m, events).saved.value % BpmPerBeat == 0
    decreases |events|
  {
    if |events| > 0 {
      if !Available(m, events[0]) {
        RunKeepsConsistent(m, events[1..]);
      } else {
        StepKeepsConsistent(m, events[0]);
        match ManualStep(m, events[0])
        case Stay(next) => RunKeepsConsistent(next, events[1..]);
        case Close(_) =>
      }
    }
  }

  /** The opening state is consistent. */
  lemma StartConsistent()
    ensures Consistent(ManualStart)
  {
  }

  /** The five bands of the result label. */
  datatype ManualLevel = Low | Good | Fair | High | VeryHigh

  /** `stressLevelText`: fixed cut-offs 60, 80, 100 and 120, whatever the age group. */
  function ManualLevelOf(bpm: int): (l: ManualLevel)
    ensures l == Low <==> bpm < 60
    ensures l == Good <==> 60 <= bpm < 80
    ensures l == Fair <==> 80 <= bpm < 100
    ensures l == High <==> 100 <= bpm < 120
    ensures l == VeryHigh <==> 120 <= bpm
  {
    if bpm < 60 then Low
    else if bpm < 80 then Good
    else if bpm < 100 then Fair
    else if bpm < 120 then High
    else VeryHigh
  }

  function ManualLevelColor(l: ManualLevel): Color {
    match l
    case Low => Purple
    case Good => Green
    case Fair => Blue
    case High => Orange
    case VeryHigh => Red
  }

  /** `stressColor`: the same cut-offs as the label, so each label has its own colour. */
  function ManualColor(bpm: int): (c: Color)
    ensures c == ManualLevelColor(ManualLevelOf(bpm))
  {
    if bpm < 60 then Purple
    else if bpm < 80 then Green
    else if bpm < 100 then Blue
    else if bpm < 120 then Orange
    else Red
  }

  /** `stressColorScheme`: success for the two lowest labels, calm for the middle one,
      stress above. */
  function ManualBackground(bpm: int): (r: BackgroundScheme)
    ensures r == Success <==> ManualLevelOf(bpm) in {Low, Good}
    ensures r == Calm <==> ManualLevelOf(bpm) == Fair
    ensures r == Stress <==> ManualLevelOf(bpm) in {High, VeryHigh}
  {
    if bpm < 80 then Success
    else if bpm < 100 then Calm
    else Stress
  }
}
