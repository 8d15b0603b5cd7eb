/** The home screen (`cordis/Views/HomeView.swift`): the BPM text field and its
    validation, saving a measurement, the automatic HealthKit save, the meditation
    prompt, the background colour, the advice text, the streak caption and the
    localised stress label. Only the state these rules read and write is kept. */
module Home {
  import opened Wrappers
  import opened Text
  import opened Seqs
  import opened Numeric
  import opened Classification
  import opened Records
  import opened Streak
  import opened Entries

  /** What the screen holds: the store's entries (insertion order), the first stats and
      settings records as the view's queries last delivered them, and the text field as
      the Characters it holds. */
  datatype HomeState = HomeState(
    store: seq<StressEntry>,
    stats: Option<UserStats>,
    settings: Option<AppSettings>,
    bpmInput: seq<Grapheme>,
    showInputError: bool)

  /** The two one-shot animations a save can start. */
  datatype Celebration = Celebration(confetti: bool, explosion: bool)

  const NoCelebration: Celebration := Celebration(false, false)

  /** `settings?.ageGroup ?? 2`. */
  function AgeGroup(settings: Option<AppSettings>): int {
    match settings
    case Some(s) => s.ageGroup
    case None => DefaultAgeGroup
  }

  /** Lowest and highest BPM the field accepts. */
  const MinInputBpm: int := 30
  const MaxInputBpm: int := 220

  /** The guard of `analizar`: the trimmed text parses as an `Int` within 30...220. */
  function AcceptedBpm(input: string): (r: Option<int>)
    ensures r.Some? ==> MinInputBpm <= r.value <= MaxInputBpm
    ensures r.Some? ==> ParseInt(Trim(input)) == r
    ensures (ParseInt(Trim(input)).Some? && MinInputBpm <= ParseInt(Trim(input)).value <= MaxInputBpm)
              ==> r.Some?
  {
    var p := ParseInt(Trim(input));
    if p.Some? && MinInputBpm <= p.value <= MaxInputBpm then p else None
  }

  /** A digit string, as the field's filter leaves it, is accepted exactly when its
      value is in range. */
  lemma AcceptedDigitString(s: string)
    requires |s| > 0 && AllDigits(s)
    ensures AcceptedBpm(s).Some? <==> MinInputBpm <= DigitsValue(s) <= MaxInputBpm
    ensures AcceptedBpm(s).Some? ==> AcceptedBpm(s).value == DigitsValue(s)
  {
    TrimKeepsDigits(s);
  }

  /** Typing the decimal form of an in-range BPM is accepted and gives that BPM back. */
  lemma AcceptedRendered(n: int)
    requires MinInputBpm <= n <= MaxInputBpm
    ensures AcceptedBpm(IntDescription(n)) == Some(n)
  {
    var d := IntDescription(n);
    TrimKeepsDigits(d);
    ParseIntDescription(n);
  }

  lemma TrimKeepsDigits(s: string)
    requires |s| > 0 && AllDigits(s)
    ensures Trim(s) == s
  {
    assert !IsWhitespace(s[0]) && !IsWhitespace(s[|s| - 1]);
    assert TrimLeft(s) == s;
    assert TrimRight(s) == s;
  }

  /** The field's `onChange`: keep the numeral-led Characters and hide the error.
      Applying it to its own result changes nothing. */
  function OnInputChange(s: HomeState, newValue: seq<Grapheme>): (r: HomeState)
    ensures (forall i :: 0 <= i < |r.bpmInput| ==> IsNumberCharacter(r.bpmInput[i])) && !r.showInputError
    ensures forall g :: g in r.bpmInput <==> g in newValue && IsNumberCharacter(g)
    ensures r.store == s.store && r.stats == s.stats && r.settings == s.settings
    ensures NumbersOnly(r.bpmInput) == r.bpmInput
  {
    NumbersOnlyIdempotent(newValue);
    s.(bpmInput := NumbersOnly(newValue), showInputError := false)
  }

  /** What the filter leaves is accepted exactly when it is a non-empty run of ASCII
      digits whose value is in range, and then the BPM is that value. Every other
      numeral, and every mark on a digit, survives the filter only to be refused. */
  lemma FilteredAcceptedIffDigits(typed: seq<Grapheme>)
    requires forall g :: g in typed ==> NumeralLedWellFormed(g)
    ensures var field := Flatten(NumbersOnly(typed));
      && (AcceptedBpm(field).Some? <==>
            AllDigits(field) && |field| > 0 && MinInputBpm <= DigitsValue(field) <= MaxInputBpm)
      && (AcceptedBpm(field).Some? ==> AllDigits(field) && AcceptedBpm(field).value == DigitsValue(field))
      && (AllDigits(field) <==> forall g :: g in typed && IsNumberCharacter(g) ==> AllDigits(g))
  {
    var kept := NumbersOnly(typed);
    var field := Flatten(kept);
    NumbersOnlyAllDigits(typed);
    if AllDigits(field) {
      if |field| > 0 {
        AcceptedDigitString(field);
      } else {
        assert Trim(field) == "";
      }
    } else {
      var i :| 0 <= i < |field| && !IsDigit(field[i]);
      FlattenNonDigit(kept, field[i]);
      TrimKeepsNonWhitespace(field, field[i]);
      ParseRejectsNonDigit(Trim(field), field[i]);
    }
  }

  /** A field holding a Character that is led by a numeral but is not an ASCII digit
      (another script's digit, a circled number, a digit carrying a keycap) is never
      accepted: the filter keeps it whole, and `Int(_:)` reads ASCII digits only. */
  lemma OtherNumeralRejected(typed: seq<Grapheme>, g: Grapheme)
    requires g in typed && IsNumberCharacter(g) && NumeralLedWellFormed(g) && !AllDigits(g)
    ensures AcceptedBpm(Flatten(NumbersOnly(typed))).None?
  {
    var field := Flatten(NumbersOnly(typed));
    var j :| 0 <= j < |g| && !IsDigit(g[j]);
    var c := g[j];
    assert g in NumbersOnly(typed);
    assert c in g;
    assert c in field;
    if j == 0 {
      OtherNumeralIsNotAscii(c);
    }
    TrimKeepsNonWhitespace(field, c);
    ParseRejectsNonDigit(Trim(field), c);
  }

  /** "12㊈0": the circled nine is a numeral, so the filter keeps all four Characters
      and the save is refused. */
  lemma MixedNumeralsExample()
    ensures NumbersOnly(["1", "2", "\U{3288}", "0"]) == ["1", "2", "\U{3288}", "0"]
    ensures AcceptedBpm(Flatten(NumbersOnly(["1", "2", "\U{3288}", "0"]))).None?
  {
    var typed: seq<Grapheme> := ["1", "2", "\U{3288}", "0"];
    NumbersOnlyKeepsNumberStrings(typed);
    OtherNumeralRejected(typed, "\U{3288}");
  }

  /** "1️⃣2️⃣0️⃣": each keycap Character starts with its digit, so the filter keeps it
      whole, variation selector and keycap mark included, and the save is refused. */
  lemma KeycapDigitsExample()
    ensures var typed: seq<Grapheme> := ["1\U{FE0F}\U{20E3}", "2\U{FE0F}\U{20E3}", "0\U{FE0F}\U{20E3}"];
      NumbersOnly(typed) == typed && AcceptedBpm(Flatten(NumbersOnly(typed))).None?
  {
    var typed: seq<Grapheme> := ["1\U{FE0F}\U{20E3}", "2\U{FE0F}\U{20E3}", "0\U{FE0F}\U{20E3}"];
    var one: Grapheme := "1\U{FE0F}\U{20E3}";
    assert !IsDigit(one[1]);
    NumbersOnlyKeepsNumberStrings(typed);
    OtherNumeralRejected(typed, one);
  }

  /** Re-running the field's filter on the text it produced changes nothing. */
  lemma OnInputChangeIdempotent(s: HomeState, newValue: seq<Grapheme>)
    ensures var r := OnInputChange(s, newValue); OnInputChange(r, r.bpmInput) == r
  {
  }

  /** Which animations a saved BPM starts: confetti from the bottom of the range up to
      ten above it, the explosion above the range. */
  function Celebrate(table: Table, bpm: int, ageGroup: int): (c: Celebration)
    ensures c.confetti <==>
              LevelOf(table, bpm, ageGroup) == Excellent || bpm == Thresholds(table, ageGroup).min + 10
    ensures c.explosion <==> LevelOf(table, bpm, ageGroup) == Arrhythmia
    ensures !(c.confetti && c.explosion)
  {
    var t := Thresholds(table, ageGroup);
    Celebration(t.min <= bpm <= t.min + 10, bpm > t.max)
  }

  /** `ensureStatsExists`: inserts a fresh stats record only when there is none. */
  function EnsureStats(stats: Option<UserStats>): (r: Option<UserStats>)
    ensures r.Some?
    ensures stats.Some? ==> r == stats
  {
    if stats.None? then Some(NewStats) else stats
  }

  /** `saveEntry(bpm:)`: insert an entry stamped `now` with the settings' age group and
      update the streak. The stats record `updateStreak` reads is the one the query
      delivered before the call, so a record inserted by `ensureStatsExists` in this
      same call is not updated until the next save. */
  function SaveEntry(s: HomeState, table: Table, bpm: int, now: int): (r: (HomeState, Celebration))
    ensures r.0.store == s.store + [MakeEntry(table, bpm, now, AgeGroup(s.settings))]
    ensures s.stats.None? ==> r.0.stats == Some(NewStats)
    ensures s.stats.Some? ==> r.0.stats == Some(UpdateStreak(s.stats.value, DayOf(now)))
    ensures r.0.settings == s.settings && r.0.bpmInput == s.bpmInput
    ensures r.0.showInputError == s.showInputError
    ensures r.1 == Celebrate(table, bpm, AgeGroup(s.settings))
  {
    var group := AgeGroup(s.settings);
    var entry := MakeEntry(table, bpm, now, group);
    var stats := if s.stats.None? then EnsureStats(s.stats) else UpdateStoredStreak(s.stats, DayOf(now));
    (s.(store := s.store + [entry], stats := stats), Celebrate(table, bpm, group))
  }

  /** `analizar`: an accepted BPM hides the error, saves one entry and clears the field;
      anything else shows the error and saves nothing. */
  function Analyze(s: HomeState, now: int): (r: (HomeState, Celebration))
    ensures AcceptedBpm(Flatten(s.bpmInput)).None? <==> r.0.store == s.store
    ensures AcceptedBpm(Flatten(s.bpmInput)).None? ==>
              r.0 == s.(showInputError := true) && r.1 == NoCelebration
    ensures AcceptedBpm(Flatten(s.bpmInput)).Some? ==>
              var bpm := AcceptedBpm(Flatten(s.bpmInput)).value;
              && r.0.store == s.store + [MakeEntry(Current, bpm, now, AgeGroup(s.settings))]
              && r.0.bpmInput == [] && !r.0.showInputError
              && r.1 == Celebrate(Current, bpm, AgeGroup(s.settings))
  {
    match AcceptedBpm(Flatten(s.bpmInput))
    case None => (s.(showInputError := true), NoCelebration)
    case Some(bpm) =>
      var saved := SaveEntry(s.(showInputError := false), Current, bpm, now);
      (saved.0.(bpmInput := []), saved.1)
  }

  /** `necesitaMeditar`: the newest entry is above the range of its own age group. With
      no entries the BPM counts as 0, which is below every range, so the answer is no. */
  function NeedsMeditation(table: Table, store: seq<StressEntry>, settings: Option<AppSettings>): (r: bool)
    ensures r <==> (|store| > 0 &&
              LevelOf(table, Newest(store)[0].bpm, Newest(store)[0].ageGroup) == Arrhythmia)
  {
    var entries := Newest(store);
    var group := if |entries| > 0 then entries[0].ageGroup else AgeGroup(settings);
    var bpm := if |entries| > 0 then entries[0].bpm else 0;
    bpm > Thresholds(table, group).max
  }

  /** Saving an above-range BPM later than every stored entry makes the screen offer
      the emergency meditation. */
  lemma HighSavePromptsMeditation(s: HomeState, bpm: int, now: int)
    requires forall i :: 0 <= i < |s.store| ==> s.store[i].timestamp < now
    requires bpm > Thresholds(Current, AgeGroup(s.settings)).max
    ensures NeedsMeditation(Current, SaveEntry(s, Current, bpm, now).0.store, s.settings)
  {
    var e := MakeEntry(Current, bpm, now, AgeGroup(s.settings));
    LatestComesFirst(s.store, e);
  }

  datatype BackgroundScheme = Calm | Success | Stress

  /** `backgroundColorScheme`: the explosion wins; otherwise the newest entry's band
      picks success below `min + 10` and stress above the range. */
  function Background(explosion: bool, store: seq<StressEntry>): (r: BackgroundScheme)
    ensures r == Stress <==> (explosion ||
              (|store| > 0 && LevelOf(Current, Newest(store)[0].bpm, Newest(store)[0].ageGroup) == Arrhythmia))
    ensures r == Success <==> (!explosion && |store| > 0 &&
              LevelOf(Current, Newest(store)[0].bpm, Newest(store)[0].ageGroup) in {CardiacArrest, Excellent})
  {
    var entries := Newest(store);
    if explosion then Stress
    else if |entries| > 0 && entries[0].bpm < Thresholds(Current, entries[0].ageGroup).min + 10 then Success
    else if |entries| > 0 && entries[0].bpm > Thresholds(Current, entries[0].ageGroup).max then Stress
    else Calm
  }

  /** The five advice texts of `consejoPara`. */
  datatype Advice = AdviceLow | AdviceHigh | AdviceExcellent | AdviceNormal | AdviceElevated

  function LevelAdvice(l: Level): Advice {
    match l
    case CardiacArrest => AdviceLow
    case Arrhythmia => AdviceHigh
    case Excellent => AdviceExcellent
    case Normal => AdviceNormal
    case Elevated => AdviceElevated
  }

  /** `consejoPara(bpm:ageGroup:)`, tested in order below, above, `< min + 10`,
      `< max - 15`; the advice always matches the entry's label. */
  function AdviceFor(table: Table, bpm: int, ageGroup: int): (a: Advice)
    ensures a == LevelAdvice(LevelOf(table, bpm, ageGroup))
  {
    var t := Thresholds(table, ageGroup);
    if bpm < t.min then AdviceLow
    else if bpm > t.max then AdviceHigh
    else if bpm < t.min + 10 then AdviceExcellent
    else if bpm < t.max - 15 then AdviceNormal
    else AdviceElevated
  }

  /** The entries saved within the last minute with the same BPM. */
  function RecentSame(entries: seq<StressEntry>, bpm: int, now: int): (r: seq<StressEntry>)
    ensures forall e :: e in r <==> e in entries && e.timestamp > now - 60 && e.bpm == bpm
  {
    Filter(entries, (e: StressEntry) => e.timestamp > now - 60 && e.bpm == bpm)
  }

  /** `saveHealthKitEntry(bpm:)`: skip the reading when an entry with the same BPM was
      saved in the last 60 seconds, otherwise save it like a typed one. */
  function SaveHealthKitEntry(s: HomeState, bpm: int, now: int): (r: (HomeState, Celebration))
    ensures (exists e :: e in s.store && e.timestamp > now - 60 && e.bpm == bpm) <==> r.0.store == s.store
    ensures r.0.store != s.store ==> r == SaveEntry(s, Current, bpm, now)
    ensures r.0.store == s.store ==> r == (s, NoCelebration)
  {
    var recent := RecentSame(Newest(s.store), bpm, now);
    assert forall e :: e in Newest(s.store) <==> e in s.store by {
      forall e ensures e in Newest(s.store) <==> e in s.store {
        assert e in Newest(s.store) <==> e in multiset(Newest(s.store));
      }
    }
    if |recent| == 0 then SaveEntry(s, Current, bpm, now)
    else
      assert recent[0] in recent;
      (s, NoCelebration)
  }

  /** A reading saved from HealthKit is not saved again within the next minute. */
  lemma HealthKitRepeatSuppressed(s: HomeState, bpm: int, now: int, later: int)
    requires now <= later < now + 60
    requires (SaveHealthKitEntry(s, bpm, now).0.store != s.store)
    ensures var s1 := SaveHealthKitEntry(s, bpm, now).0;
      SaveHealthKitEntry(s1, bpm, later) == (s1, NoCelebration)
  {
    var s1 := SaveHealthKitEntry(s, bpm, now).0;
    var e := MakeEntry(Current, bpm, now, AgeGroup(s.settings));
    assert s1.store[|s1.store| - 1] == e;
    assert e in s1.store;
  }

  /** The `onChange` of HealthKit's latest heart rate: save only a new reading that
      replaces an earlier one, as `Int(newBpm)`. */
  function OnHeartRateChange(s: HomeState, previous: Option<real>, latest: Option<real>, now: int): (r: (HomeState, Celebration))
    ensures previous.None? || latest.None? || previous == latest ==> r == (s, NoCelebration)
    ensures previous.Some? && latest.Some? && previous != latest ==>
              r == SaveHealthKitEntry(s, TruncateToInt(latest.value), now)
  {
    if latest.Some? && previous.Some? && latest != previous then SaveHealthKitEntry(s, TruncateToInt(latest.value), now)
    else (s, NoCelebration)
  }

  /** `streakText(days:)` with the localised word for "streak" as `word`: the count
      after ": " reads back as the number of days, none when not positive. */
  function StreakText(word: string, days: int): (r: string)
    requires days <= IntMax
    ensures |r| > |word| + 2 && r[..|word| + 2] == word + ": "
    ensures ParseInt(r[|word| + 2..]) == Some(if days <= 0 then 0 else days)
  {
    var n := if days <= 0 then 0 else days;
    var r := word + ": " + IntDescription(n);
    assert r[|word| + 2..] == IntDescription(n);
    ParseIntDescription(n);
    r
  }

  /** The label of a stored entry as shown: the five labels `StressEntry` writes get a
      localisation key, compared without regard to case; other text is shown as is. */
  datatype ShownLevel = Keyed(key: string) | Raw(text: string)

  function LevelKey(l: Level): string {
    match l
    case Excellent => "stress_excellent"
    case Normal => "stress_normal"
    case Elevated => "stress_elevated"
    case Arrhythmia => "stress_arrhythmia"
    case CardiacArrest => "stress_low"
  }

  /** `localizedStressLevel(_:)` of the home screen. */
  function LocalizedStressLevel(raw: string): (r: ShownLevel)
    ensures forall l :: raw == LevelText(l) ==> r == Keyed(LevelKey(l))
    ensures r.Raw? ==> r.text == raw
    ensures r.Raw? <==> forall l :: Lowercase(raw) != Lowercase(LevelText(l))
  {
    LabelsLowercase();
    assert LevelText(Excellent) == "Excelente" && LevelText(Normal) == "Normal";
    assert LevelText(Elevated) == "Elevado" && LevelText(Arrhythmia) == "arritmia";
    assert LevelText(CardiacArrest) == "paro cardiaco";
    match Lowercase(raw)
    case "excelente" => Keyed("stress_excellent")
    case "normal" => Keyed("stress_normal")
    case "elevado" => Keyed("stress_elevated")
    case "arritmia" => Keyed("stress_arrhythmia")
    case "paro cardiaco" => Keyed("stress_low")
    case _ => Raw(raw)
  }

  /** What `lowercased()` makes of the five stored labels. */
  lemma LabelsLowercase()
    ensures Lowercase("Excelente") == "excelente"
    ensures Lowercase("Normal") == "normal"
    ensures Lowercase("Elevado") == "elevado"
    ensures Lowercase("arritmia") == "arritmia"
    ensures Lowercase("paro cardiaco") == "paro cardiaco"
  {
    assert Lowercase("Excelente")[0] == 'e';
    assert Lowercase("Normal")[0] == 'n';
    assert Lowercase("Elevado")[0] == 'e';
  }

  /** The lookup ignores case: two texts that lower-case alike get the same key. */
  lemma LocalizedIgnoresCase(a: string, b: string)
    requires Lowercase(a) == Lowercase(b)
    ensures LocalizedStressLevel(a).Keyed? <==> LocalizedStressLevel(b).Keyed?
    ensures LocalizedStressLevel(a).Keyed? ==> LocalizedStressLevel(a) == LocalizedStressLevel(b)
  {
  }
}
