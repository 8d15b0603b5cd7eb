/** Heart-rate classification of a `StressEntry`: resting thresholds per age group,
    the five stress labels and the colour shown for an entry. The app carries two
    copies of these rules with different age-group tables: the current model and a
    legacy one that stops at group 2. Both are modelled; `Table` selects which. */
module Classification {
  import opened Wrappers

  /** Which copy of the threshold table is in force. */
  datatype Table = Current | Legacy

  /** The resting range `[min, max]` in beats per minute. */
  datatype Range = Range(min: int, max: int)

  /** Every range of both tables leaves room for all three in-range bands. */
  predicate WellFormed(t: Range) {
    0 < t.min && t.min + 10 < t.max - 15
  }

  /** Thresholds of the current model: groups 0..3 by age, any other group is the adult range. */
  function ThresholdsCurrent(ageGroup: int): (t: Range)
    ensures WellFormed(t)
    ensures 55 <= t.min && t.max <= 120
  {
    match ageGroup
    case 0 => Range(70, 120)
    case 1 => Range(65, 115)
    case 2 => Range(60, 110)
    case 3 => Range(55, 100)
    case _ => Range(60, 100)
  }

  /** Thresholds of the legacy model: only groups 0 and 1 differ from the 13-16 range. */
  function ThresholdsLegacy(ageGroup: int): (t: Range)
    ensures WellFormed(t)
    ensures t.max - t.min == 50
  {
    match ageGroup
    case 0 => Range(70, 120)
    case 1 => Range(65, 115)
    case _ => Range(60, 110)
  }

  function Thresholds(table: Table, ageGroup: int): (t: Range)
    ensures WellFormed(t)
  {
    match table
    case Current => ThresholdsCurrent(ageGroup)
    case Legacy => ThresholdsLegacy(ageGroup)
  }

  /** Older groups have strictly lower bounds, at both ends, in the current table. */
  lemma CurrentThresholdsDecrease(g: int, h: int)
    requires 0 <= g < h <= 3
    ensures ThresholdsCurrent(h).min < ThresholdsCurrent(g).min
    ensures ThresholdsCurrent(h).max < ThresholdsCurrent(g).max
  {
  }

  /** The two tables agree exactly on groups 0, 1 and 2; group 3 and every unknown
      group are classified differently. */
  lemma TablesAgreeOnFirstGroups(g: int)
    ensures ThresholdsCurrent(g) == ThresholdsLegacy(g) <==> 0 <= g <= 2
    ensures g == 3 ==> ThresholdsCurrent(g) == Range(55, 100) && ThresholdsLegacy(g) == Range(60, 110)
  {
  }

  /** The five labels of `level(from:ageGroup:)`. */
  datatype Level = CardiacArrest | Excellent | Normal | Elevated | Arrhythmia

  /** The exact strings stored in `stressLevel`. */
  function LevelText(l: Level): string {
    match l
    case CardiacArrest => "paro cardiaco"
    case Excellent => "Excelente"
    case Normal => "Normal"
    case Elevated => "Elevado"
    case Arrhythmia => "arritmia"
  }

  /** Reads a stored label back; `None` for strings no label produces. */
  function ParseLevel(s: string): (r: Option<Level>)
    ensures r.Some? ==> LevelText(r.value) == s
  {
    if s == "paro cardiaco" then Some(CardiacArrest)
    else if s == "Excelente" then Some(Excellent)
    else if s == "Normal" then Some(Normal)
    else if s == "Elevado" then Some(Elevated)
    else if s == "arritmia" then Some(Arrhythmia)
    else None
  }

  /** Every label string parses back to its label, so the five strings are distinct. */
  lemma ParseLevelText(l: Level)
    ensures ParseLevel(LevelText(l)) == Some(l)
  {
  }

  /** `level(from:ageGroup:)`: below the range, above it, then the three in-range
      bands `[min, min+10)`, `[min+10, max-15)` and `[max-15, max]`. The `default`
      arm of the source's switch returns "Normal"; it is kept, and the contract shows
      no in-range bpm reaches it. */
  function LevelOf(table: Table, bpm: int, ageGroup: int): (l: Level)
    ensures var t := Thresholds(table, ageGroup);
      && (l == CardiacArrest <==> bpm < t.min)
      && (l == Arrhythmia <==> bpm > t.max)
      && (l == Excellent <==> t.min <= bpm < t.min + 10)
      && (l == Normal <==> t.min + 10 <= bpm < t.max - 15)
      && (l == Elevated <==> t.max - 15 <= bpm <= t.max)
  {
    var t := Thresholds(table, ageGroup);
    if bpm < t.min then CardiacArrest
    else if bpm > t.max then Arrhythmia
    else if t.min <= bpm < t.min + 10 then Excellent
    else if t.min + 10 <= bpm < t.max - 15 then Normal
    else if t.max - 15 <= bpm <= t.max then Elevated
    else Normal
  }

  /** Orders the labels from the slowest heart to the fastest. */
  function Severity(l: Level): nat {
    match l
    case CardiacArrest => 0
    case Excellent => 1
    case Normal => 2
    case Elevated => 3
    case Arrhythmia => 4
  }

  /** Within one age group a faster heart never gets a calmer label. */
  lemma LevelMonotone(table: Table, ageGroup: int, a: int, b: int)
    requires a <= b
    ensures Severity(LevelOf(table, a, ageGroup)) <= Severity(LevelOf(table, b, ageGroup))
  {
  }

  /** The colours an entry can be drawn in. */
  datatype Color = Purple | Red | Green | Blue | Orange

  /** The colour each label stands for. */
  function LevelColor(l: Level): Color {
    match l
    case CardiacArrest => Purple
    case Arrhythmia => Red
    case Excellent => Green
    case Normal => Blue
    case Elevated => Orange
  }

  /** `StressEntry.color`: the same cut-offs tested with `<` only. It always agrees
      with the label of the same bpm and group. */
  function ColorOf(table: Table, bpm: int, ageGroup: int): (c: Color)
    ensures c == LevelColor(LevelOf(table, bpm, ageGroup))
  {
    var t := Thresholds(table, ageGroup);
    if bpm < t.min then Purple
    else if bpm > t.max then Red
    else if bpm < t.min + 10 then Green
    else if bpm < t.max - 15 then Blue
    else Orange
  }

  /** A stored measurement: timestamps are whole seconds since a fixed epoch. */
  datatype StressEntry = StressEntry(bpm: int, timestamp: int, stressLevel: string, ageGroup: int)

  /** The age group an entry gets when none is given. */
  const DefaultAgeGroup: int := 2

  /** `StressEntry.init`: the label is computed once, from bpm and group, and stored as text. */
  function MakeEntry(table: Table, bpm: int, timestamp: int, ageGroup: int): (e: StressEntry)
    ensures e.bpm == bpm && e.timestamp == timestamp && e.ageGroup == ageGroup
    ensures ParseLevel(e.stressLevel) == Some(LevelOf(table, bpm, ageGroup))
  {
    ParseLevelText(LevelOf(table, bpm, ageGroup));
    StressEntry(bpm, timestamp, LevelText(LevelOf(table, bpm, ageGroup)), ageGroup)
  }

  /** `StressEntry(bpm:timestamp:)` without a group: the 13-16 group. */
  function MakeDefaultEntry(table: Table, bpm: int, timestamp: int): (e: StressEntry)
    ensures e.ageGroup == 2 && e.bpm == bpm && e.timestamp == timestamp
    ensures ParseLevel(e.stressLevel) == Some(LevelOf(table, bpm, 2))
  {
    MakeEntry(table, bpm, timestamp, DefaultAgeGroup)
  }

  /** The colour of a stored entry, from its own bpm and group. */
  function EntryColor(table: Table, e: StressEntry): Color {
    ColorOf(table, e.bpm, e.ageGroup)
  }

  /** The expectations of the unit tests for the current model, as one lemma. */
  lemma CurrentModelExamples()
    ensures ThresholdsCurrent(0) == Range(70, 120) && ThresholdsCurrent(1) == Range(65, 115)
    ensures ThresholdsCurrent(2) == Range(60, 110) && ThresholdsCurrent(3) == Range(55, 100)
    ensures ThresholdsCurrent(99) == Range(60, 100)
    ensures LevelText(LevelOf(Current, 50, 2)) == "paro cardiaco"
    ensures LevelText(LevelOf(Current, 120, 2)) == "arritmia"
    ensures LevelText(LevelOf(Current, 65, 2)) == "Excelente"
    ensures LevelText(LevelOf(Current, 80, 2)) == "Normal"
    ensures LevelText(LevelOf(Current, 100, 2)) == "Elevado"
    ensures ColorOf(Current, 50, 2) == Purple && ColorOf(Current, 120, 2) == Red
    ensures ColorOf(Current, 65, 2) == Green && ColorOf(Current, 80, 2) == Blue
    ensures ColorOf(Current, 100, 2) == Orange
    ensures MakeEntry(Current, 75, 0, 1).stressLevel == "Normal"
    ensures MakeDefaultEntry(Current, 70, 0).ageGroup == 2
    ensures LevelText(LevelOf(Current, 60, 2)) == "Excelente"
    ensures LevelText(LevelOf(Current, 110, 2)) == "Elevado"
    ensures LevelText(LevelOf(Current, 59, 2)) == "paro cardiaco"
    ensures LevelText(LevelOf(Current, 111, 2)) == "arritmia"
  {
  }
}
