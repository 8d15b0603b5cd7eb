/** The earlier home screen (`cordis/HomeView.swift`), which classifies with the
    legacy threshold table. It differs from `Home` in `analizar` (the stats record is
    ensured before validation and a rejected input is simply cleared), in the Spanish
    streak caption with its singular form, in `borrarTodo` and in showing the labels
    with fixed Spanish words. The meditation prompt and the advice are `Home`'s rules
    applied to the legacy table. */
module LegacyHome {
  import opened Wrappers
  import opened Text
  import opened Classification
  import opened Records
  import opened Streak
  import opened Home

  /** The legacy `analizar`: `ensureStatsExists` runs first, then a rejected input is
      cleared without saving, and an accepted one is saved, streaked and cleared. */
  function LegacyAnalyze(s: HomeState, now: int): (r: (HomeState, Celebration))
    ensures r.0.stats.Some? && r.0.bpmInput == [] && r.0.settings == s.settings
    ensures AcceptedBpm(Flatten(s.bpmInput)).None? <==> r.0.store == s.store
    ensures AcceptedBpm(Flatten(s.bpmInput)).None? ==> r.0.stats == EnsureStats(s.stats) && r.1 == NoCelebration
    ensures AcceptedBpm(Flatten(s.bpmInput)).Some? ==>
              var bpm := AcceptedBpm(Flatten(s.bpmInput)).value;
              && r.0.store == s.store + [MakeEntry(Legacy, bpm, now, AgeGroup(s.settings))]
              && (s.stats.Some? ==> r.0.stats == Some(UpdateStreak(s.stats.value, DayOf(now))))
              && r.1 == Celebrate(Legacy, bpm, AgeGroup(s.settings))
  {
    match AcceptedBpm(Flatten(s.bpmInput))
    case None => (s.(stats := EnsureStats(s.stats), bpmInput := []), NoCelebration)
    case Some(bpm) =>
      var saved := SaveEntry(s, Legacy, bpm, now);
      (saved.0.(bpmInput := []), saved.1)
  }

  /** `borrarTodo`: every stored entry is deleted; nothing else changes. */
  function DeleteAll(s: HomeState): (r: HomeState)
    ensures r.store == [] && r == s.(store := [])
  {
    s.(store := [])
  }

  /** After deleting everything the screen no longer offers the meditation. */
  lemma DeleteAllClearsPrompt(s: HomeState)
    ensures !NeedsMeditation(Legacy, DeleteAll(s).store, s.settings)
  {
  }

  /** `streakText(days:)`: "Racha: N días", singular "día" for exactly one day, and 0
      for a count that is not positive. */
  function LegacyStreakText(days: int): (r: string)
    requires days <= IntMax
    ensures |r| > 11 && r[..7] == "Racha: "
    ensures r[|r| - 4..] == " día" <==> days == 1
    ensures var unit := if days == 1 then 4 else 5;
      ParseInt(r[7..|r| - unit]) == Some(if days <= 0 then 0 else days)
  {
    var n := if days <= 0 then 0 else days;
    var unit := if days == 1 then " día" else " días";
    StreakTextParts(n, unit);
    "Racha: " + IntDescription(n) + unit
  }

  lemma StreakTextParts(n: int, unit: string)
    requires 0 <= n <= IntMax && (unit == " día" || unit == " días")
    ensures var r := "Racha: " + IntDescription(n) + unit;
      && |r| > 11 && r[..7] == "Racha: "
      && (r[|r| - 4..] == " día" <==> unit == " día")
      && ParseInt(r[7..|r| - |unit|]) == Some(n)
  {
    var digits := IntDescription(n);
    var r := "Racha: " + digits + unit;
    assert r[..7] == "Racha: ";
    assert r[7..|r| - |unit|] == digits;
    assert r[|r| - 4..] == unit[|unit| - 4..];
    ParseIntDescription(n);
  }

  /** The fixed Spanish word the legacy screen shows for each label. */
  function LevelWord(l: Level): string {
    match l
    case Excellent => "Excelente"
    case Normal => "Normal"
    case Elevated => "Elevado"
    case Arrhythmia => "Arritmia"
    case CardiacArrest => "Paro cardiaco"
  }

  /** The legacy `localizedStressLevel(_:)`: the five stored labels, in any case, get
      their capitalised word; other text is shown unchanged. */
  function LegacyLocalizedStressLevel(raw: string): (r: string)
    ensures forall l :: raw == LevelText(l) ==> r == LevelWord(l)
    ensures (forall l :: Lowercase(raw) != Lowercase(LevelText(l))) ==> r == raw
  {
    LabelsLowercase();
    assert LevelText(Excellent) == "Excelente" && LevelText(Normal) == "Normal";
    assert LevelText(Elevated) == "Elevado" && LevelText(Arrhythmia) == "arritmia";
    assert LevelText(CardiacArrest) == "paro cardiaco";
    match Lowercase(raw)
    case "excelente" => "Excelente"
    case "normal" => "Normal"
    case "elevado" => "Elevado"
    case "arritmia" => "Arritmia"
    case "paro cardiaco" => "Paro cardiaco"
    case _ => raw
  }
}
